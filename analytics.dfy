// The local analytics store fed by `analytics_ingest` in globe/views.py: one
// session row per (session id, product id), refreshed from the latest
// snapshot the browser sends, and an append-only list of raw events. The
// decryption of envelopes, `parse_datetime` and the clock are parameters.

module Analytics {
  import opened PyValue
  import opened Lists

  // ---------------------------------------------------------------------
  // The envelope

  /** What `_parse_ts` makes of a timestamp: an instant, None, or an
      exception that escapes the view. */
  datatype Parsed = At(t: int) | NoTime | Raises

  /** The outside world: the RSA-OAEP/AES-GCM decryption of a complete
      envelope (None when it fails), `parse_datetime` of a text with its
      time-zone fix-up (an instant; None when the text does not match; a
      ValueError when it matches but names no valid instant), the current
      instant, and `str()` of the values whose text is not modelled. */
  datatype Env = Env(
    decrypt: map<string, Value> -> Option<Value>,
    parseTime: string -> Parsed,
    now: int,
    repr: Value -> string)

  /** `_decrypt_analytics_envelope(body)`: nothing unless the body is a dict
      with a truthy key, iv and data. */
  function DecryptEnvelope(body: Value, env: Env): (r: Option<Value>)
    ensures !body.Obj? ==> r == None
    ensures (body.Obj? &&
      !(Truthy(Get(body.fields, "key")) && Truthy(Get(body.fields, "iv")) && Truthy(Get(body.fields, "data")))) ==> r == None
  {
    if !body.Obj? then None
    else if !(Truthy(Get(body.fields, "key")) && Truthy(Get(body.fields, "iv")) && Truthy(Get(body.fields, "data"))) then None
    else env.decrypt(body.fields)
  }

  /** A plain payload already has the final shape. */
  predicate IsPlain(raw: Value) {
    raw.Obj? && "session" in raw.fields && "events" in raw.fields
  }

  /** The payload to store: the body itself when plain, else the decrypted
      envelope, else `{}`. */
  function Payload(raw: Value, env: Env): (data: Value)
    ensures IsPlain(raw) ==> data == raw
    ensures !IsPlain(raw) && DecryptEnvelope(raw, env).None? ==> data == Obj(map[])
  {
    if IsPlain(raw) then raw
    else
      var dec := DecryptEnvelope(raw, env);
      Or(if dec.Some? then dec.value else Null, Obj(map[]))
  }

  /** `_parse_ts(value)`: a falsy value gives None; `parse_datetime` raises
      a TypeError on anything but a text. */
  function ParseTs(v: Value, env: Env): (r: Parsed)
    ensures !Truthy(v) ==> r == NoTime
    ensures Truthy(v) && !v.Str? ==> r == Raises
    ensures r.At? ==> v.Str? && env.parseTime(v.s) == r
  {
    if !Truthy(v) then NoTime
    else if !v.Str? then Raises
    else env.parseTime(v.s)
  }

  /** The instant a parse that did not raise gives, if any. */
  function TimeOf(t: Parsed): Option<int> {
    if t.At? then Some(t.t) else None
  }

  // ---------------------------------------------------------------------
  // The session row

  /** The text columns with their length limits. */
  const TextLimits: map<string, nat> := map[
    "path" := 500, "traffic_source" := 64,
    "utm_source" := 100, "utm_medium" := 100, "utm_campaign" := 100, "utm_term" := 100, "utm_content" := 100,
    "device" := 32, "os" := 128, "browser" := 255, "viewport" := 32, "orientation" := 32,
    "language" := 32, "country" := 64]

  const FlagNames: set<string> := {"consent", "is_returning", "sampled"}

  const CounterNames: set<string> := {
    "max_scroll_pct", "cta_clicks", "enquiry_submissions", "video_seconds_watched",
    "idle_time_ms", "events_count", "duration_ms"}

  /** An `AnalyticsSession` row: the columns the view reads and writes. Text,
      flag and counter columns are kept by name; a name missing from its map
      holds the column's default ("", False, 0). */
  datatype Session = Session(
    userId: string,
    startedAt: Option<int>,
    endedAt: Option<int>,
    texts: map<string, string>,
    flags: map<string, bool>,
    counters: map<string, int>,
    sectionDurations: map<string, int>,
    lastActiveSection: string)

  function TextOf(s: Session, name: string): string {
    if name in s.texts then s.texts[name] else ""
  }

  function FlagOf(s: Session, name: string): bool {
    name in s.flags && s.flags[name]
  }

  function CounterOf(s: Session, name: string): int {
    if name in s.counters then s.counters[name] else 0
  }

  type SessionKey = (string, string)

  /** One `AnalyticsEvent` row. */
  datatype Event = Event(
    session: SessionKey,
    eventType: string,
    occurredAt: int,
    pageUrl: string,
    referrer: string,
    payload: Value)

  /** `str(v or "").strip()` */
  function CleanText(v: Value, env: Env): string {
    Strip(StrOf(Or(v, Str("")), env.repr))
  }

  /** The snapshot's text fields are strings or falsy, since they are sliced. */
  predicate SnapshotShaped(sd: map<string, Value>) {
    forall name :: name in TextLimits ==> StrOrFalsy(Get(sd, name))
  }

  /** `(session_data.get(f) or session_obj.f or "")[:limit]` for each text
      column: the incoming text when it is non-empty, else the stored one,
      cut to the column's limit; a stored text within its limit is kept when
      nothing comes in. */
  function MergeTexts(stored: Session, sd: map<string, Value>): (r: map<string, string>)
    requires SnapshotShaped(sd)
    ensures r.Keys == TextLimits.Keys
    ensures forall name :: name in r ==> |r[name]| <= TextLimits[name]
    ensures forall name :: name in r && Truthy(Get(sd, name)) ==>
      r[name] == Take(Get(sd, name).s, TextLimits[name])
    ensures forall name :: name in r && !Truthy(Get(sd, name)) ==>
      r[name] == Take(TextOf(stored, name), TextLimits[name]) &&
      (|TextOf(stored, name)| <= TextLimits[name] ==> r[name] == TextOf(stored, name))
  {
    map name | name in TextLimits ::
      Take(if Truthy(Get(sd, name)) then Get(sd, name).s else TextOf(stored, name), TextLimits[name])
  }

  /** `bool(session_data.get(f, session_obj.f))` for each flag: the truth of
      the incoming value when the snapshot has the key, even a falsy one;
      the stored flag only when the key is absent. */
  function MergeFlags(stored: Session, sd: map<string, Value>): (r: map<string, bool>)
    ensures r.Keys == FlagNames
    ensures forall name :: name in r && name in sd ==> r[name] == Truthy(sd[name])
    ensures forall name :: name in r && name !in sd ==> r[name] == FlagOf(stored, name)
  {
    map name | name in FlagNames :: if name in sd then Truthy(sd[name]) else FlagOf(stored, name)
  }

  /** `_as_int(name)`: the incoming value (or the stored one when absent), with
      a falsy value read as 0; the stored value when `int()` fails. */
  function AsInt(stored: Session, sd: map<string, Value>, name: string): int {
    var v := if name in sd then sd[name] else Int(CounterOf(stored, name));
    match PyInt(Or(v, Int(0)))
    case IntOk(n) => n
    case _ => CounterOf(stored, name)
  }

  /** `max(0, n)`, and `max(0, min(100, n))` for the scroll percentage. */
  function Clamp(name: string, n: int): (r: int)
    ensures r >= 0 && (name == "max_scroll_pct" ==> r <= 100)
    ensures 0 <= n && (name == "max_scroll_pct" ==> n <= 100) ==> r == n
  {
    var upper := if name == "max_scroll_pct" && n > 100 then 100 else n;
    if upper < 0 then 0 else upper
  }

  /** Each counter: the incoming value `int()` converts (a falsy one as 0),
      clamped; the stored value, clamped, when the key is absent or `int()`
      fails. */
  function MergeCounters(stored: Session, sd: map<string, Value>): (r: map<string, int>)
    ensures r.Keys == CounterNames
    ensures forall name :: name in r && name in sd && PyInt(Or(sd[name], Int(0))).IntOk? ==>
      r[name] == Clamp(name, PyInt(Or(sd[name], Int(0))).n)
    ensures forall name :: name in r && name in sd && !Truthy(sd[name]) ==> r[name] == 0
    ensures forall name :: name in r && (name !in sd || !PyInt(Or(sd[name], Int(0))).IntOk?) ==>
      r[name] == Clamp(name, CounterOf(stored, name))
  {
    map name | name in CounterNames :: Clamp(name, AsInt(stored, sd, name))
  }

  /** `int(value or 0)`, with 0 when that fails. */
  function Increment(v: Value): int {
    match PyInt(Or(v, Int(0)))
    case IntOk(n) => n
    case _ => 0
  }

  function Get0(m: map<string, int>, k: string): int {
    if k in m then m[k] else 0
  }

  /** The increment each incoming key carries. */
  function Increments(incoming: map<string, Value>): (incs: map<string, int>)
    ensures incs.Keys == incoming.Keys
    ensures forall k :: k in incs ==> incs[k] == Increment(incoming[k])
  {
    map k | k in incoming :: Increment(incoming[k])
  }

  /** The stored durations after the increments of the keys in `done`: each
      strictly positive increment is added to the stored value. */
  function MergeSome(stored: map<string, int>, incs: map<string, int>, done: set<string>): map<string, int> {
    map k | k in stored.Keys + (set j | j in done && j in incs && incs[j] > 0) ::
      if k in done && k in incs && incs[k] > 0 then Get0(stored, k) + incs[k] else stored[k]
  }

  lemma MergeSomeNone(stored: map<string, int>, incs: map<string, int>)
    ensures MergeSome(stored, incs, {}) == stored
  {
  }

  /** One more key merged: a strictly positive increment is added to the
      value merged so far, which is still the stored one; any other leaves
      the merge as it was. */
  lemma MergeSomeStep(stored: map<string, int>, incs: map<string, int>, done: set<string>, key: string,
                      m: map<string, int>, m': map<string, int>)
    requires key in incs && key !in done && m == MergeSome(stored, incs, done)
    requires m' == if incs[key] > 0 then m[key := Get0(m, key) + incs[key]] else m
    ensures m' == MergeSome(stored, incs, done + {key})
  {
    assert Get0(m, key) == Get0(stored, key);
  }

  /** The merged `section_durations`. */
  function MergeDurations(stored: map<string, int>, incoming: map<string, Value>): map<string, int> {
    MergeSome(stored, Increments(incoming), incoming.Keys)
  }

  /** Only strictly positive increments count: each is added to the stored
      value of its key; every other key keeps its value, and no key is lost. */
  lemma MergeDurationsSpec(stored: map<string, int>, incoming: map<string, Value>)
    ensures var merged := MergeDurations(stored, incoming);
      stored.Keys <= merged.Keys &&
      (forall k :: k in merged ==>
        if k in incoming && Increment(incoming[k]) > 0 then merged[k] == Get0(stored, k) + Increment(incoming[k])
        else k in stored && merged[k] == stored[k]) &&
      (forall k :: k in stored ==> merged[k] >= stored[k])
  {
  }

  /** The row a new (session id, product id) pair starts from. */
  function NewSession(sd: map<string, Value>, started: Option<int>, ended: Option<int>, env: Env): Session {
    Session(Take(CleanText(Get(sd, "user_id"), env), 64), started, ended, map[], map[], map[], map[], "")
  }

  /** The row refreshed from the snapshot. */
  function UpdateSession(stored: Session, sd: map<string, Value>, started: Option<int>, ended: Option<int>, env: Env): Session
    requires SnapshotShaped(sd)
  {
    var incoming := Get(sd, "section_durations");
    var las := CleanText(Get(sd, "last_active_section"), env);
    Session(
      Take(CleanText(Or(Get(sd, "user_id"), Str(stored.userId)), env), 64),
      if stored.startedAt.Some? then stored.startedAt else started,
      if ended.Some? then ended else stored.endedAt,
      MergeTexts(stored, sd),
      MergeFlags(stored, sd),
      MergeCounters(stored, sd),
      if incoming.Obj? then MergeDurations(stored.sectionDurations, incoming.fields) else stored.sectionDurations,
      if las != "" then Take(las, 100) else stored.lastActiveSection)
  }

  /** What the refresh keeps and replaces: the start is only filled in, never
      overwritten; the end is replaced by a parsed one and kept otherwise; the
      user id and every text column take the incoming non-empty text, else
      keep their own, within their limits; a flag takes the truth of the
      incoming value whenever the key is present; counters stay in range;
      the section durations are merged when a dict comes in; the last section
      is replaced only by a non-blank one. */
  lemma UpdateSessionSpec(stored: Session, sd: map<string, Value>, started: Option<int>, ended: Option<int>, env: Env)
    requires SnapshotShaped(sd)
    ensures var s := UpdateSession(stored, sd, started, ended, env);
      (stored.startedAt.Some? ==> s.startedAt == stored.startedAt) &&
      (stored.startedAt.None? ==> s.startedAt == started) &&
      (ended.Some? ==> s.endedAt == ended) &&
      (ended.None? ==> s.endedAt == stored.endedAt)
    ensures var s := UpdateSession(stored, sd, started, ended, env);
      |s.userId| <= 64 &&
      (Truthy(Get(sd, "user_id")) ==> s.userId == Take(CleanText(Get(sd, "user_id"), env), 64)) &&
      (!Truthy(Get(sd, "user_id")) ==> s.userId == Take(Strip(stored.userId), 64))
    ensures var s := UpdateSession(stored, sd, started, ended, env);
      (forall name :: name in TextLimits ==> |TextOf(s, name)| <= TextLimits[name]) &&
      (forall name :: name in TextLimits && Truthy(Get(sd, name)) ==>
        TextOf(s, name) == Take(Get(sd, name).s, TextLimits[name])) &&
      (forall name :: name in TextLimits && !Truthy(Get(sd, name)) ==>
        TextOf(s, name) == Take(TextOf(stored, name), TextLimits[name]))
    ensures var s := UpdateSession(stored, sd, started, ended, env);
      (forall name :: name in FlagNames && name in sd ==> FlagOf(s, name) == Truthy(sd[name])) &&
      (forall name :: name in FlagNames && name !in sd ==> FlagOf(s, name) == FlagOf(stored, name))
    ensures var s := UpdateSession(stored, sd, started, ended, env);
      (forall name :: name in CounterNames ==> 0 <= CounterOf(s, name)) &&
      CounterOf(s, "max_scroll_pct") <= 100
    ensures var s, incoming := UpdateSession(stored, sd, started, ended, env), Get(sd, "section_durations");
      (incoming.Obj? ==> s.sectionDurations == MergeDurations(stored.sectionDurations, incoming.fields)) &&
      (!incoming.Obj? ==> s.sectionDurations == stored.sectionDurations)
    ensures var s, las := UpdateSession(stored, sd, started, ended, env), CleanText(Get(sd, "last_active_section"), env);
      (las != "" ==> s.lastActiveSection == Take(las, 100)) &&
      (las == "" ==> s.lastActiveSection == stored.lastActiveSection)
  {
    UserIdRefreshed(stored, sd, env);
  }

  /** `str(session_data.get("user_id") or session_obj.user_id or "").strip()`:
      the incoming id when truthy, else the stored one, stripped. */
  lemma UserIdRefreshed(stored: Session, sd: map<string, Value>, env: Env)
    ensures var t := CleanText(Or(Get(sd, "user_id"), Str(stored.userId)), env);
      (Truthy(Get(sd, "user_id")) ==> t == CleanText(Get(sd, "user_id"), env)) &&
      (!Truthy(Get(sd, "user_id")) ==> t == Strip(stored.userId))
  {
    if !Truthy(Get(sd, "user_id")) && stored.userId == "" {
      StripUnchanged("");
    }
  }

  /** A counter takes whatever incoming value `int()` converts — an integer,
      a numeric text, a float truncated, a boolean, a falsy value as 0 —
      clamped, whatever was stored. */
  lemma CounterReplaced(stored: Session, sd: map<string, Value>, started: Option<int>, ended: Option<int>, env: Env,
                        name: string)
    requires SnapshotShaped(sd) && name in CounterNames
    requires name in sd && PyInt(Or(sd[name], Int(0))).IntOk?
    ensures CounterOf(UpdateSession(stored, sd, started, ended, env), name) == Clamp(name, PyInt(Or(sd[name], Int(0))).n)
    ensures !Truthy(sd[name]) ==> CounterOf(UpdateSession(stored, sd, started, ended, env), name) == 0
  {
  }

  /** An unusable counter keeps the stored value. */
  lemma CounterKept(stored: Session, sd: map<string, Value>, started: Option<int>, ended: Option<int>, env: Env,
                    name: string)
    requires SnapshotShaped(sd) && name in CounterNames
    requires name !in sd || !PyInt(Or(sd[name], Int(0))).IntOk?
    requires 0 <= CounterOf(stored, name) && (name == "max_scroll_pct" ==> CounterOf(stored, name) <= 100)
    ensures CounterOf(UpdateSession(stored, sd, started, ended, env), name) == CounterOf(stored, name)
  {
  }

  /** One element of `events`: a dict with a non-blank `event_type`. */
  predicate EventShaped(ev: Value, sd: map<string, Value>) {
    ev.Obj? ==> (StrOrFalsy(Get(ev.fields, "page_url")) && StrOrFalsy(Get(ev.fields, "referrer")) &&
      (!Truthy(Get(ev.fields, "page_url")) ==> StrOrFalsy(Get(sd, "path"))))
  }

  function EventOf(key: SessionKey, sd: map<string, Value>, env: Env): Value --> Option<Event> {
    (ev: Value) requires EventShaped(ev, sd) =>
      if !ev.Obj? then None
      else
        var eventType := CleanText(Get(ev.fields, "event_type"), env);
        if eventType == "" then None
        else
          var occurred := ParseTs(Or(Get(ev.fields, "occurred_at"), Get(sd, "started_at")), env);
          var pageUrl := Or(Get(ev.fields, "page_url"), Get(sd, "path"));
          var payload := Or(Get(ev.fields, "payload"), Obj(map[]));
          Some(Event(
            key,
            Take(eventType, 64),
            if occurred.At? then occurred.t else env.now,
            Take(TextOr(pageUrl), 500),
            Take(TextOr(Get(ev.fields, "referrer")), 500),
            if payload.Obj? then payload else Obj(map["value" := payload])))
  }

  /** An event whose time `_parse_ts` raises on: the loop reaches the parse
      only for a dict with a non-blank `event_type`. */
  function Raiser(sd: map<string, Value>, env: Env): Value -> bool {
    (ev: Value) =>
      ev.Obj? && CleanText(Get(ev.fields, "event_type"), env) != "" &&
      ParseTs(Or(Get(ev.fields, "occurred_at"), Get(sd, "started_at")), env).Raises?
  }

  /** The events that `for ev in events` walks: a list's elements; a string
      or dict yields characters or keys, none of which is a dict. */
  function EventItems(evs: Value): seq<Value> {
    if evs.Arr? then evs.items else []
  }

  /** `events` can be iterated: a list, string or dict (a falsy value became []). */
  predicate Iterable(evs: Value) {
    evs.Arr? || evs.Str? || evs.Obj?
  }

  // ---------------------------------------------------------------------
  // The ingest step

  /** The JSON answer: ignored with a reason, saved with the number of events,
      or an exception: a snapshot that is not a dict, or a session timestamp
      that cannot be parsed, before anything is written; events that cannot
      be iterated, after the session row is saved; an event timestamp that
      cannot be parsed, after the row and the events before it are saved. */
  datatype Outcome = Ignored(reason: string) | Saved(sessionId: string, productId: string, eventsSaved: nat) | Crashed

  datatype Store = Store(sessions: map<SessionKey, Session>, events: seq<Event>)

  /** `data.get("session") or {}` */
  function SnapshotOf(data: map<string, Value>): Value {
    Or(Get(data, "session"), Obj(map[]))
  }

  /** `data.get("events") or []` */
  function EventsOf(data: map<string, Value>): Value {
    Or(Get(data, "events"), Arr([]))
  }

  predicate EventsShaped(items: seq<Value>, sd: map<string, Value>) {
    forall i :: 0 <= i < |items| ==> EventShaped(items[i], sd)
  }

  /** The fields of a payload dict the step reads without raising. */
  predicate DataShaped(data: map<string, Value>) {
    var sd := SnapshotOf(data);
    sd.Obj? ==> SnapshotShaped(sd.fields) && EventsShaped(EventItems(EventsOf(data)), sd.fields)
  }

  predicate IngestShaped(raw: Value, env: Env) {
    Payload(raw, env).Obj? ==> DataShaped(Payload(raw, env).fields)
  }

  /** The session key of a snapshot: its stripped id and product id, the
      latter cut to 64 characters. */
  function KeyOf(sd: map<string, Value>, env: Env): (key: SessionKey)
    ensures |key.1| <= 64
  {
    (CleanText(Get(sd, "session_id"), env), Take(CleanText(Get(sd, "product_id"), env), 64))
  }

  /** The session row after the snapshot: the stored row for the key, or a
      new one, refreshed. */
  function SessionAfter(sessions: map<SessionKey, Session>, key: SessionKey, sd: map<string, Value>, env: Env): Session
    requires SnapshotShaped(sd)
  {
    var started, ended := TimeOf(ParseTs(Get(sd, "started_at"), env)), TimeOf(ParseTs(Get(sd, "ended_at"), env));
    var base := if key in sessions then sessions[key] else NewSession(sd, started, ended, env);
    UpdateSession(base, sd, started, ended, env)
  }

  /** A session timestamp raises before anything is written. */
  predicate TimesRaise(sd: map<string, Value>, env: Env) {
    ParseTs(Get(sd, "started_at"), env).Raises? || ParseTs(Get(sd, "ended_at"), env).Raises?
  }

  /** An event row belongs to the session `key` and has a non-blank type of at
      most 64 characters. */
  predicate TiedTo(e: Event, key: SessionKey) {
    e.session == key && e.eventType != "" && |e.eventType| <= 64
  }

  lemma EventOfTied(key: SessionKey, sd: map<string, Value>, env: Env, items: seq<Value>)
    requires EventsShaped(items, sd)
    ensures Accepts(items, EventOf(key, sd, env))
    ensures forall i :: 0 <= i < |items| && EventOf(key, sd, env)(items[i]).Some? ==>
      TiedTo(EventOf(key, sd, env)(items[i]).value, key)
  {
  }

  /** Writing the row under `key`, then appending the events `f` keeps, up
      to the first event on which the loop raises. */
  function Save(st: Store, key: SessionKey, row: Session, evs: Value, f: Value --> Option<Event>,
                raises: Value -> bool): (r: (Store, Outcome))
    requires Accepts(EventItems(evs), f)
    ensures !r.1.Ignored?
  {
    var sessions := st.sessions[key := row];
    if !Iterable(evs) then (Store(sessions, st.events), Crashed)
    else
      var items := EventItems(evs);
      var stop := FirstWhere(items, raises);
      assert Accepts(items[..stop], f);
      var added := FilterMap(items[..stop], f);
      (Store(sessions, st.events + added), if stop < |items| then Crashed else Saved(key.0, key.1, |added|))
  }

  /** The step on a payload dict: ignored, untouched, exactly when the
      snapshot is a dict with a blank session id. */
  function IngestData(st: Store, data: map<string, Value>, env: Env): (r: (Store, Outcome))
    requires DataShaped(data)
    ensures r.1.Ignored? <==> SnapshotOf(data).Obj? && KeyOf(SnapshotOf(data).fields, env).0 == ""
    ensures r.1.Ignored? ==> r == (st, Ignored("missing session_id"))
  {
    var sd := SnapshotOf(data);
    if !sd.Obj? then (st, Crashed)
    else
      var key := KeyOf(sd.fields, env);
      if key.0 == "" then (st, Ignored("missing session_id"))
      else if TimesRaise(sd.fields, env) then (st, Crashed)
      else
        EventOfTied(key, sd.fields, env, EventItems(EventsOf(data)));
        Save(st, key, SessionAfter(st.sessions, key, sd.fields, env), EventsOf(data), EventOf(key, sd.fields, env),
             Raiser(sd.fields, env))
  }

  /** `analytics_ingest` on a store. A payload is ignored for a missing
      session id exactly when it is a dict whose snapshot is a dict with a
      blank `session_id`, and an ignored payload writes nothing. */
  function IngestStep(st: Store, raw: Value, env: Env): (r: (Store, Outcome))
    requires IngestShaped(raw, env)
    ensures r.1 == Ignored("missing session_id") <==>
      (Payload(raw, env).Obj? && SnapshotOf(Payload(raw, env).fields).Obj? &&
       CleanText(Get(SnapshotOf(Payload(raw, env).fields).fields, "session_id"), env) == "")
    ensures r.1.Ignored? ==> r.0 == st
  {
    var data := Payload(raw, env);
    if !data.Obj? then (st, Ignored("invalid_payload")) else IngestData(st, data.fields, env)
  }

  /** What a step promises about the store: an ignored payload leaves it as
      it was; a saved one writes exactly one session row, under the key it
      answers with, and only appends events, one per event saved, each tied
      to that row. */
  predicate StepKeeps(st: Store, st': Store, out: Outcome) {
    (out.Ignored? ==> st' == st) &&
    (out.Saved? ==>
      var key := (out.sessionId, out.productId);
      st'.sessions.Keys == st.sessions.Keys + {key} &&
      (forall k :: k in st.sessions && k != key ==> st'.sessions[k] == st.sessions[k]) &&
      |st'.events| == |st.events| + out.eventsSaved && st'.events[..|st.events|] == st.events &&
      (forall i :: |st.events| <= i < |st'.events| ==> TiedTo(st'.events[i], key))) &&
    (out.Crashed? ==> |st.events| <= |st'.events| && st'.events[..|st.events|] == st.events)
  }

  /** Saving writes the row, then appends exactly the kept events before the
      first one the loop raises on; it answers Saved exactly when the events
      can be iterated and none raises. */
  lemma SaveSpec(st: Store, key: SessionKey, row: Session, evs: Value, f: Value --> Option<Event>, raises: Value -> bool)
    requires Accepts(EventItems(evs), f)
    requires forall i :: 0 <= i < |EventItems(evs)| && f(EventItems(evs)[i]).Some? ==>
      TiedTo(f(EventItems(evs)[i]).value, key)
    ensures var (st', out) := Save(st, key, row, evs, f, raises);
      StepKeeps(st, st', out) && (out.Saved? ==> (out.sessionId, out.productId) == key)
      && st'.sessions[key] == row
    ensures var (st', out) := Save(st, key, row, evs, f, raises);
      var items := EventItems(evs);
      var stop := FirstWhere(items, raises);
      (out.Saved? <==> Iterable(evs) && stop == |items|) &&
      (Iterable(evs) ==> Accepts(items[..stop], f) && st'.events == st.events + FilterMap(items[..stop], f))
  {
    var items := EventItems(evs);
    var stop := FirstWhere(items, raises);
    var done := items[..stop];
    assert Accepts(done, f);
    assert forall i :: 0 <= i < |done| ==> done[i] == items[i];
    FilterMapAll(done, f, (e: Event) => TiedTo(e, key));
    var added := FilterMap(done, f);
    assert forall i :: |st.events| <= i < |st.events + added| ==> (st.events + added)[i] == added[i - |st.events|];
  }

  /** The step keeps the store as `StepKeeps` says; a saved session id is
      non-blank and its product id has at most 64 characters; a session
      timestamp that `_parse_ts` raises on (a number, say) writes nothing. */
  lemma IngestSpec(st: Store, raw: Value, env: Env)
    requires IngestShaped(raw, env)
    ensures var (st', out) := IngestStep(st, raw, env);
      StepKeeps(st, st', out) && (out.Saved? ==> out.sessionId != "" && |out.productId| <= 64)
    ensures var data := Payload(raw, env);
      (data.Obj? && SnapshotOf(data.fields).Obj? && KeyOf(SnapshotOf(data.fields).fields, env).0 != "" &&
       TimesRaise(SnapshotOf(data.fields).fields, env)) ==> IngestStep(st, raw, env) == (st, Crashed)
  {
    var data := Payload(raw, env);
    if data.Obj? {
      var sd := SnapshotOf(data.fields);
      if sd.Obj? && KeyOf(sd.fields, env).0 != "" && !TimesRaise(sd.fields, env) {
        var key := KeyOf(sd.fields, env);
        EventOfTied(key, sd.fields, env, EventItems(EventsOf(data.fields)));
        SaveSpec(st, key, SessionAfter(st.sessions, key, sd.fields, env), EventsOf(data.fields),
                 EventOf(key, sd.fields, env), Raiser(sd.fields, env));
      }
    }
  }

  // ---------------------------------------------------------------------
  // The store

  class AnalyticsStore {
    var sessions: map<SessionKey, Session>
    var events: seq<Event>

    constructor()
      ensures sessions == map[] && events == []
    {
      sessions := map[];
      events := [];
    }

    /** The loop that merges `section_durations`, key by key. */
    static method MergeDurationsLoop(stored: map<string, int>, incoming: map<string, Value>) returns (merged: map<string, int>)
      ensures merged == MergeDurations(stored, incoming)
    {
      merged := stored;
      var todo := incoming.Keys;
      ghost var done: set<string> := {};
      ghost var incs := Increments(incoming);
      MergeSomeNone(stored, incs);
      while todo != {}
        invariant todo !! done && todo + done == incoming.Keys
        invariant merged == MergeSome(stored, incs, done)
        decreases todo
      {
        var key :| key in todo;
        ghost var before := merged;
        var inc := Increment(incoming[key]);
        if inc > 0 {
          merged := merged[key := Get0(merged, key) + inc];
        }
        MergeSomeStep(stored, incs, done, key, before, merged);
        todo := todo - {key};
        done := done + {key};
      }
    }

    /** The refresh of one row from the snapshot. */
    static method Refresh(stored: Session, sd: map<string, Value>, started: Option<int>, ended: Option<int>, env: Env)
      returns (row: Session)
      requires SnapshotShaped(sd)
      ensures row == UpdateSession(stored, sd, started, ended, env)
    {
      var durations := stored.sectionDurations;
      var incoming := Get(sd, "section_durations");
      if incoming.Obj? {
        durations := MergeDurationsLoop(stored.sectionDurations, incoming.fields);
      }
      var las := CleanText(Get(sd, "last_active_section"), env);
      row := Session(
        Take(CleanText(Or(Get(sd, "user_id"), Str(stored.userId)), env), 64),
        if stored.startedAt.Some? then stored.startedAt else started,
        if ended.Some? then ended else stored.endedAt,
        MergeTexts(stored, sd),
        MergeFlags(stored, sd),
        MergeCounters(stored, sd),
        durations,
        if las != "" then Take(las, 100) else stored.lastActiveSection);
    }

    /** The loop that saves the events, one row per event `f` keeps, until
      an event it raises on. */
    method AppendEvents(items: seq<Value>, f: Value --> Option<Event>, raises: Value -> bool)
      returns (created: nat, raised: bool)
      requires Accepts(items, f)
      modifies this
      ensures sessions == old(sessions)
      ensures raised <==> FirstWhere(items, raises) < |items|
      ensures Accepts(items[..FirstWhere(items, raises)], f)
      ensures events == old(events) + FilterMap(items[..FirstWhere(items, raises)], f)
      ensures created == |FilterMap(items[..FirstWhere(items, raises)], f)|
    {
      created := 0;
      var i := 0;
      while i < |items|
        invariant i <= FirstWhere(items, raises)
        invariant Accepts(items[..i], f)
        invariant sessions == old(sessions)
        invariant events == old(events) + FilterMap(items[..i], f)
        invariant created == |FilterMap(items[..i], f)|
      {
        if raises(items[i]) {
          return created, true;
        }
        FilterMapSnoc(items, i, f);
        var ev := f(items[i]);
        if ev.Some? {
          events := events + [ev.value];
          created := created + 1;
        }
        i := i + 1;
      }
      return created, false;
    }

    /** Writing the refreshed row, then saving the events. */
    method SaveAll(key: SessionKey, row: Session, evs: Value, f: Value --> Option<Event>, raises: Value -> bool)
      returns (out: Outcome)
      requires Accepts(EventItems(evs), f)
      modifies this
      ensures (Store(sessions, events), out) == Save(Store(old(sessions), old(events)), key, row, evs, f, raises)
    {
      sessions := sessions[key := row];
      if !Iterable(evs) {
        return Crashed;
      }
      var created, raised := AppendEvents(EventItems(evs), f, raises);
      if raised {
        return Crashed;
      }
      return Saved(key.0, key.1, created);
    }

    /** The view once the payload is a dict. */
    method IngestDict(data: map<string, Value>, env: Env) returns (out: Outcome)
      requires DataShaped(data)
      modifies this
      ensures (Store(sessions, events), out) == IngestData(Store(old(sessions), old(events)), data, env)
    {
      var sd := SnapshotOf(data);
      var evs := EventsOf(data);
      if !sd.Obj? {
        return Crashed;
      }
      var sessionId := CleanText(Get(sd.fields, "session_id"), env);
      if sessionId == "" {
        return Ignored("missing session_id");
      }
      var productId := Take(CleanText(Get(sd.fields, "product_id"), env), 64);
      var key := (sessionId, productId);
      var startedTs := ParseTs(Get(sd.fields, "started_at"), env);
      if startedTs.Raises? {
        return Crashed;
      }
      var endedTs := ParseTs(Get(sd.fields, "ended_at"), env);
      if endedTs.Raises? {
        return Crashed;
      }
      var started, ended := TimeOf(startedTs), TimeOf(endedTs);
      var stored := if key in sessions then sessions[key] else NewSession(sd.fields, started, ended, env);
      var row := Refresh(stored, sd.fields, started, ended, env);
      EventOfTied(key, sd.fields, env, EventItems(evs));
      out := SaveAll(key, row, evs, EventOf(key, sd.fields, env), Raiser(sd.fields, env));
    }

    /** `analytics_ingest(request)` */
    method Ingest(raw: Value, env: Env) returns (out: Outcome)
      requires IngestShaped(raw, env)
      modifies this
      ensures (Store(sessions, events), out) == IngestStep(Store(old(sessions), old(events)), raw, env)
    {
      var data := Payload(raw, env);
      if !data.Obj? {
        return Ignored("invalid_payload");
      }
      out := IngestDict(data.fields, env);
    }
  }
}

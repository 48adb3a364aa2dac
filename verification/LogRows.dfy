/** The rows of a log export, column by column from its records, for both encodings. */
module LogRows {
  import opened Common
  import opened Otlp
  import opened DedupId
  import opened Flatten
  import opened Logs
  import opened SkewWindow

  /** A record where it stands: under its resource and its scope. */
  datatype LogInput<R> = LogInput(resource: Attributes, scope: Option<string>, record: R)

  // ---------------------------------------------------------------- correlation

  predicate IsText(m: Attributes, key: string) {
    key in m && m[key].JString? && m[key].s != ""
  }

  /** The text under the first of the keys that has one. */
  ghost predicate FirstText(m: Attributes, keys: seq<string>, found: Option<string>) {
    if found.None? then forall i :: 0 <= i < |keys| ==> !IsText(m, keys[i])
    else exists i :: 0 <= i < |keys| && IsText(m, keys[i]) && m[keys[i]].s == found.value
                     && forall j :: 0 <= j < i ==> !IsText(m, keys[j])
  }

  /** The record decides if it has a text under one of the keys, and else its resource. */
  ghost predicate CorrelatedBy(record: Attributes, resource: Attributes, keys: seq<string>, found: Option<string>) {
    if exists i :: 0 <= i < |keys| && IsText(record, keys[i]) then FirstText(record, keys, found)
    else FirstText(resource, keys, found)
  }

  lemma {:induction false} LookupFindsFirst(m: Attributes, keys: seq<string>)
    ensures FirstText(m, keys, LookupAny(m, keys))
  {
    if keys != [] {
      LookupFindsFirst(m, keys[1..]);
      var found := LookupAny(m, keys[1..]);
      if Lookup(m, keys[0]).Some? {
        assert IsText(m, keys[0]) && m[keys[0]].s == LookupAny(m, keys).value;
      } else if found.Some? {
        var i :| 0 <= i < |keys| - 1 && IsText(m, keys[1..][i]) && m[keys[1..][i]].s == found.value
              && forall j :: 0 <= j < i ==> !IsText(m, keys[1..][j]);
        assert keys[i + 1] == keys[1..][i];
        forall j | 0 <= j < i + 1 ensures !IsText(m, keys[j]) {
          if j > 0 {
            assert keys[j] == keys[1..][j - 1];
          }
        }
      } else {
        forall j | 0 <= j < |keys| ensures !IsText(m, keys[j]) {
          if j > 0 {
            assert keys[j] == keys[1..][j - 1];
          }
        }
      }
    }
  }

  lemma CorrelatedExactly(record: Attributes, resource: Attributes, keys: seq<string>)
    ensures CorrelatedBy(record, resource, keys, Correlated(record, resource, keys))
  {
    LookupFindsFirst(record, keys);
    LookupFindsFirst(resource, keys);
    if LookupAny(record, keys).Some? {
      var i :| 0 <= i < |keys| && IsText(record, keys[i]);
    }
  }

  /** Who a record belongs to. */
  ghost predicate Identified(v: StoredLog) {
    && CorrelatedBy(v.logAttributes, v.resourceAttributes, ["tenant_id", "tenant.id", "tenant"], v.tenantId)
    && CorrelatedBy(v.logAttributes, v.resourceAttributes,
                    ["actor_id", "actor.id", "user.id", "enduser.id", "user_id"], v.actorId)
    && CorrelatedBy(v.logAttributes, v.resourceAttributes, ["session_id", "session.id", "session"], v.sessionId)
  }

  /** The id is hashed from columns of the row itself: neither receipt, scope, severity text nor resource count. */
  ghost predicate IdOfColumns(lib: Library, v: StoredLog) {
    v.logId == lib.hash(Preimage(LogKey(
      if I64_MIN <= v.logTime <= I64_MAX then v.logTime else 0,
      OrEmpty(v.serviceName), OrEmpty(v.body), OrEmpty(v.traceId), OrEmpty(v.spanId),
      if v.severityNumber.Some? then v.severityNumber.value else 0, lib.text(JObject(v.logAttributes)))))
  }

  lemma AssembledIsIdentified(lib: Library, f: LogFields)
    ensures Identified(Assemble(lib, f)) && IdOfColumns(lib, Assemble(lib, f))
  {
    CorrelatedExactly(f.logAttrs, f.resourceAttrs, TENANT_KEYS);
    CorrelatedExactly(f.logAttrs, f.resourceAttrs, ACTOR_KEYS);
    CorrelatedExactly(f.logAttrs, f.resourceAttrs, SESSION_KEYS);
    hide Correlated, CorrelatedBy, Preimage;
  }

  // ---------------------------------------------------------------- columns

  /** The time of a record: its own, or when it was observed, or when it was received. */
  function LogTime(time: Option<int>, observed: Option<int>, receivedAt: int): int {
    match (time, observed)
    case (Some(t), _) => t
    case (None, Some(o)) => o
    case (None, None) => receivedAt
  }

  /** A time in JSON counts if it is a number of nanoseconds and not 0. */
  function SetNanos(t: Option<StringOrNum>): Option<int> {
    if t.None? || t.value.AsU64() == None || t.value.AsU64() == Some(0) then None else Some(t.value.AsU64().value)
  }

  function Shown(lib: Library, body: Json): string {
    match body
    case JString(s) => s
    case _ => lib.text(body)
  }

  function JTime(w: Window): LogInput<JRecord> -> int {
    (x: LogInput<JRecord>) => LogTime(SetNanos(x.record.time), SetNanos(x.record.observed), w.receivedAt)
  }

  function PTime(w: Window): LogInput<PRecord> -> int {
    (x: LogInput<PRecord>) =>
      LogTime(if x.record.time == 0 then None else Some(x.record.time),
              if x.record.observed == 0 then None else Some(x.record.observed), w.receivedAt)
  }

  ghost predicate JRow(lib: Library, w: Window, x: LogInput<JRecord>, v: StoredLog) {
    var r := x.record;
    && v.logTime == LogTime(SetNanos(r.time), SetNanos(r.observed), w.receivedAt)
    && v.observedTime == SetNanos(r.observed) && v.receivedAt == w.receivedAt
    && (if r.severity.None? then v.severityNumber.None?
        else v.severityNumber.Some? && v.severityNumber.value == Max(0, Min(24, r.severity.value)))
    && v.severityText == r.severityText && v.scopeName == x.scope
    && (if r.body.None? then v.body.None? else v.body == Some(Shown(lib, JsonOfJ(r.body.value))))
    && FirstText(x.resource, ["service.name"], v.serviceName)
    && v.traceId == (if r.traceId == Some("") then None else r.traceId)
    && v.spanId == (if r.spanId == Some("") then None else r.spanId)
    && v.resourceAttributes == x.resource && v.logAttributes == MapOfJ(r.attributes)
    && Identified(v) && IdOfColumns(lib, v)
  }

  ghost predicate PRow(lib: Library, w: Window, x: LogInput<PRecord>, v: StoredLog) {
    var r := x.record;
    && v.logTime == (if r.time != 0 then r.time else if r.observed != 0 then r.observed else w.receivedAt)
    && v.observedTime == (if r.observed == 0 then None else Some(r.observed)) && v.receivedAt == w.receivedAt
    && (if r.severity == 0 then v.severityNumber.None?
        else v.severityNumber.Some? && v.severityNumber.value == Max(0, Min(24, r.severity)))
    && v.severityText == (if r.severityText == "" then None else Some(r.severityText))
    && v.scopeName == (if x.scope == Some("") then None else x.scope)
    && (if r.body.None? then v.body.None? else v.body == Some(Shown(lib, JsonOfP(r.body.value))))
    && (if "service.name" in x.resource && x.resource["service.name"].JString?
        then v.serviceName == Some(x.resource["service.name"].s) else v.serviceName.None?)
    && v.traceId == (if r.traceId == [] then None else Some(Hex(r.traceId)))
    && v.spanId == (if r.spanId == [] then None else Some(Hex(r.spanId)))
    && v.resourceAttributes == x.resource && v.logAttributes == MapOfP(r.attributes)
    && Identified(v) && IdOfColumns(lib, v)
  }

  lemma JRowOf(lib: Library, w: Window, x: LogInput<JRecord>)
    ensures JRow(lib, w, x, Assemble(lib, FieldsJ(lib, w, x.resource, x.scope, x.record)))
  {
    AssembledIsIdentified(lib, FieldsJ(lib, w, x.resource, x.scope, x.record));
    ServiceIsFirst(x.resource);
    hide Identified, IdOfColumns, FirstText, Lookup, LookupAny, KeyOf, Correlated, MapOfJ, JsonOfJ, Preimage, ParseU64,
         Trim;
  }

  lemma ServiceIsFirst(resource: Attributes)
    ensures FirstText(resource, ["service.name"], Lookup(resource, "service.name"))
  {
    LookupFindsFirst(resource, ["service.name"]);
    assert LookupAny(resource, ["service.name"]) == Lookup(resource, "service.name");
  }

  lemma PRowOf(lib: Library, w: Window, x: LogInput<PRecord>)
    ensures PRow(lib, w, x, Assemble(lib, FieldsP(lib, w, x.resource, x.scope, x.record)))
  {
    AssembledIsIdentified(lib, FieldsP(lib, w, x.resource, x.scope, x.record));
    hide Identified, IdOfColumns, KeyOf, Correlated, MapOfP, JsonOfP, Preimage, Hex;
  }

  ghost function JRows(lib: Library, w: Window): (LogInput<JRecord>, StoredLog) -> bool {
    (x: LogInput<JRecord>, v: StoredLog) => JRow(lib, w, x, v)
  }

  ghost function PRows(lib: Library, w: Window): (LogInput<PRecord>, StoredLog) -> bool {
    (x: LogInput<PRecord>, v: StoredLog) => PRow(lib, w, x, v)
  }

  lemma JSlotFits(lib: Library, w: Window, x: LogInput<JRecord>)
    ensures SlotFits(w, x, JTime(w), JRows(lib, w), SlotJ(lib, w, x.resource, x.scope, x.record))
  {
    JRowOf(lib, w, x);
    hide JRow, FieldsJ, Assemble, ParseU64, Trim;
  }

  lemma PSlotFits(lib: Library, w: Window, x: LogInput<PRecord>)
    ensures SlotFits(w, x, PTime(w), PRows(lib, w), SlotP(lib, w, x.resource, x.scope, x.record))
  {
    PRowOf(lib, w, x);
    hide PRow, FieldsP, Assemble;
  }

  // ---------------------------------------------------------------- the records of a request

  function JInputs(req: seq<JResource>): seq<LogInput<JRecord>> {
    Flat(seq(|req|, i requires 0 <= i < |req| => Flat(JScopeInputs(ResourceAttrsJ(req[i]), req[i].scopes))))
  }

  function JScopeInputs(resource: Attributes, ss: seq<JScope>): seq<seq<LogInput<JRecord>>> {
    seq(|ss|, j requires 0 <= j < |ss| =>
      seq(|ss[j].records|, k requires 0 <= k < |ss[j].records| => LogInput(resource, ss[j].name, ss[j].records[k])))
  }

  function PInputs(req: seq<PResource>): seq<LogInput<PRecord>> {
    Flat(seq(|req|, i requires 0 <= i < |req| => Flat(PScopeInputs(ResourceAttrsP(req[i]), req[i].scopes))))
  }

  function PScopeInputs(resource: Attributes, ss: seq<PScope>): seq<seq<LogInput<PRecord>>> {
    seq(|ss|, j requires 0 <= j < |ss| =>
      seq(|ss[j].records|, k requires 0 <= k < |ss[j].records| => LogInput(resource, ss[j].name, ss[j].records[k])))
  }

  ghost function JSlots(lib: Library, w: Window): (LogInput<JRecord>, Slot<StoredLog>) -> bool {
    (x: LogInput<JRecord>, slot: Slot<StoredLog>) => slot == SlotJ(lib, w, x.resource, x.scope, x.record)
  }

  lemma JWalks(lib: Library, w: Window, req: seq<JResource>)
    ensures Pairwise(JInputs(req), SlotsJ(lib, w, req), JSlots(lib, w))
  {
    hide SlotJ, Flat;
    var xs := seq(|req|, i requires 0 <= i < |req| => Flat(JScopeInputs(ResourceAttrsJ(req[i]), req[i].scopes)));
    var ys := ResourceListsJ(lib, w, req);
    forall i | 0 <= i < |req| ensures Pairwise(xs[i], ys[i], JSlots(lib, w)) {
      var attrs := ResourceAttrsJ(req[i]);
      FlatRelates(JScopeInputs(attrs, req[i].scopes), ScopeListsJ(lib, w, attrs, req[i].scopes), JSlots(lib, w));
    }
    FlatRelates(xs, ys, JSlots(lib, w));
  }

  ghost function PSlots(lib: Library, w: Window): (LogInput<PRecord>, Slot<StoredLog>) -> bool {
    (x: LogInput<PRecord>, slot: Slot<StoredLog>) => slot == SlotP(lib, w, x.resource, x.scope, x.record)
  }

  lemma PWalks(lib: Library, w: Window, req: seq<PResource>)
    ensures Pairwise(PInputs(req), SlotsP(lib, w, req), PSlots(lib, w))
  {
    hide SlotP, Flat;
    var xs := seq(|req|, i requires 0 <= i < |req| => Flat(PScopeInputs(ResourceAttrsP(req[i]), req[i].scopes)));
    var ys := ResourceListsP(lib, w, req);
    forall i | 0 <= i < |req| ensures Pairwise(xs[i], ys[i], PSlots(lib, w)) {
      var attrs := ResourceAttrsP(req[i]);
      FlatRelates(PScopeInputs(attrs, req[i].scopes), ScopeListsP(lib, w, attrs, req[i].scopes), PSlots(lib, w));
    }
    FlatRelates(xs, ys, PSlots(lib, w));
  }

  /**
   * A JSON export: no row is outside the window; short of the cap every record inside has its row, in order, and every
   * record outside is counted.
   */
  lemma JsonKeepsInside(lib: Library, w: Window, req: seq<JResource>, maxRecords: nat)
    ensures KeepsInside(w, JInputs(req), JTime(w), JRows(lib, w), maxRecords,
                        Capped(SlotsJ(lib, w, req), maxRecords))
  {
    var inputs, slots := JInputs(req), SlotsJ(lib, w, req);
    JWalks(lib, w, req);
    hide JRow, SlotsJ, JInputs, SlotJ, JTime;
    forall i | 0 <= i < |slots| ensures SlotFits(w, inputs[i], JTime(w), JRows(lib, w), slots[i]) {
      assert JSlots(lib, w)(inputs[i], slots[i]);
      JSlotFits(lib, w, inputs[i]);
    }
    WalkKeeps(w, inputs, JTime(w), JRows(lib, w), slots, maxRecords);
  }

  /** The same for a protobuf export. */
  lemma ProtoKeepsInside(lib: Library, w: Window, req: seq<PResource>, maxRecords: nat)
    ensures KeepsInside(w, PInputs(req), PTime(w), PRows(lib, w), maxRecords,
                        Capped(SlotsP(lib, w, req), maxRecords))
  {
    var inputs, slots := PInputs(req), SlotsP(lib, w, req);
    PWalks(lib, w, req);
    hide PRow, SlotsP, PInputs, SlotP, PTime;
    forall i | 0 <= i < |slots| ensures SlotFits(w, inputs[i], PTime(w), PRows(lib, w), slots[i]) {
      assert PSlots(lib, w)(inputs[i], slots[i]);
      PSlotFits(lib, w, inputs[i]);
    }
    WalkKeeps(w, inputs, PTime(w), PRows(lib, w), slots, maxRecords);
  }
}

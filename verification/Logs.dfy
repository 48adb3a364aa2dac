/** OTLP log exports in both encodings, flattened to the rows that are stored. Instants are nanoseconds. */
module Logs {
  import opened Common
  import opened Otlp
  import opened DedupId
  import opened Flatten

  type Attributes = map<string, Json>

  /** The hash of the id, and the printer of JSON values: library code, the same for both transports. */
  datatype Library = Library(hash: seq<byte> -> nat, text: Json -> string)

  datatype StoredLog = StoredLog(
    logId: nat,
    logTime: int,
    observedTime: Option<int>,
    receivedAt: int,
    severityNumber: Option<Severity>,
    severityText: Option<string>,
    body: Option<string>,
    serviceName: Option<string>,
    scopeName: Option<string>,
    traceId: Option<string>,
    spanId: Option<string>,
    tenantId: Option<string>,
    actorId: Option<string>,
    sessionId: Option<string>,
    resourceAttributes: Attributes,
    logAttributes: Attributes)

  datatype LogFields = LogFields(
    receivedAt: int,
    logTime: int,
    observedTime: Option<int>,
    severityNumber: Option<Severity>,
    severityText: Option<string>,
    body: Option<string>,
    serviceName: Option<string>,
    scopeName: Option<string>,
    traceId: Option<string>,
    spanId: Option<string>,
    logAttrs: Attributes,
    resourceAttrs: Attributes)

  const TENANT_KEYS := ["tenant_id", "tenant.id", "tenant"]
  const ACTOR_KEYS := ["actor_id", "actor.id", "user.id", "enduser.id", "user_id"]
  const SESSION_KEYS := ["session_id", "session.id", "session"]

  function Correlated(record: Attributes, resource: Attributes, keys: seq<string>): Option<string> {
    OrElse(LookupAny(record, keys), LookupAny(resource, keys))
  }

  function OrEmpty(s: Option<string>): string {
    if s.Some? then s.value else ""
  }

  /** What the id is made from; an instant that does not fit an i64 counts as 0. */
  function KeyOf(lib: Library, f: LogFields): LogKey {
    LogKey(
      if I64_MIN <= f.logTime <= I64_MAX then f.logTime else 0,
      OrEmpty(f.serviceName), OrEmpty(f.body), OrEmpty(f.traceId), OrEmpty(f.spanId),
      if f.severityNumber.Some? then f.severityNumber.value else 0,
      lib.text(JObject(f.logAttrs)))
  }

  function Assemble(lib: Library, f: LogFields): StoredLog {
    StoredLog(
      lib.hash(Preimage(KeyOf(lib, f))),
      f.logTime, f.observedTime, f.receivedAt, f.severityNumber, f.severityText, f.body, f.serviceName, f.scopeName,
      f.traceId, f.spanId,
      Correlated(f.logAttrs, f.resourceAttrs, TENANT_KEYS),
      Correlated(f.logAttrs, f.resourceAttrs, ACTOR_KEYS),
      Correlated(f.logAttrs, f.resourceAttrs, SESSION_KEYS),
      f.resourceAttrs, f.logAttrs)
  }

  datatype Window = Window(receivedAt: int, past: nat, future: nat) {
    predicate Holds(t: int) {
      receivedAt - past <= t <= receivedAt + future
    }
  }

  function ClampSeverity(n: int): Severity {
    if n < 0 then 0 else if n > 24 then 24 else n
  }

  function NonEmpty(s: Option<string>): Option<string> {
    if s.Some? && s.value == "" then None else s
  }

  function BodyText(lib: Library, v: Json): string {
    if v.JString? then v.s else lib.text(v)
  }

  // ---------------------------------------------------------------- OTLP/HTTP JSON

  datatype JRecord = JRecord(
    time: Option<StringOrNum>,
    observed: Option<StringOrNum>,
    severity: Option<int>,
    severityText: Option<string>,
    body: Option<JAny>,
    attributes: seq<JKeyValue>,
    traceId: Option<string>,
    spanId: Option<string>)

  datatype JScope = JScope(name: Option<string>, records: seq<JRecord>)

  datatype JResource = JResource(attributes: Option<seq<JKeyValue>>, scopes: seq<JScope>)

  /** A time that is set, parses and is positive. */
  function PositiveNanos(t: Option<StringOrNum>): Option<int> {
    if t.Some? && t.value.AsU64().Some? && t.value.AsU64().value > 0 then Some(t.value.AsU64().value) else None
  }

  function TimeJ(r: JRecord, receivedAt: int): int {
    if PositiveNanos(r.time).Some? then PositiveNanos(r.time).value
    else if PositiveNanos(r.observed).Some? then PositiveNanos(r.observed).value
    else receivedAt
  }

  function FieldsJ(lib: Library, w: Window, resource: Attributes, scope: Option<string>, r: JRecord): LogFields {
    LogFields(
      w.receivedAt,
      TimeJ(r, w.receivedAt),
      PositiveNanos(r.observed),
      if r.severity.Some? then Some(ClampSeverity(r.severity.value)) else None,
      r.severityText,
      if r.body.Some? then Some(BodyText(lib, JsonOfJ(r.body.value))) else None,
      Lookup(resource, "service.name"),
      scope,
      NonEmpty(r.traceId),
      NonEmpty(r.spanId),
      MapOfJ(r.attributes),
      resource)
  }

  function SlotJ(lib: Library, w: Window, resource: Attributes, scope: Option<string>, r: JRecord): Slot<StoredLog> {
    if w.Holds(TimeJ(r, w.receivedAt)) then Kept(Assemble(lib, FieldsJ(lib, w, resource, scope, r))) else Skewed
  }

  function ResourceAttrsJ(rl: JResource): Attributes {
    if rl.attributes.Some? then MapOfJ(rl.attributes.value) else map[]
  }

  function RecordSlotsJ(lib: Library, w: Window, resource: Attributes, scope: Option<string>, rs: seq<JRecord>)
    : seq<Slot<StoredLog>>
  {
    seq(|rs|, k requires 0 <= k < |rs| => SlotJ(lib, w, resource, scope, rs[k]))
  }

  function ScopeListsJ(lib: Library, w: Window, resource: Attributes, ss: seq<JScope>): seq<seq<Slot<StoredLog>>> {
    seq(|ss|, j requires 0 <= j < |ss| => RecordSlotsJ(lib, w, resource, ss[j].name, ss[j].records))
  }

  function ResourceListsJ(lib: Library, w: Window, req: seq<JResource>): seq<seq<Slot<StoredLog>>> {
    seq(|req|, i requires 0 <= i < |req| => Flat(ScopeListsJ(lib, w, ResourceAttrsJ(req[i]), req[i].scopes)))
  }

  /** The uncapped flattening of a request. */
  function SlotsJ(lib: Library, w: Window, req: seq<JResource>): seq<Slot<StoredLog>> {
    Flat(ResourceListsJ(lib, w, req))
  }

  // ---------------------------------------------------------------- OTLP/gRPC

  datatype PRecord = PRecord(
    time: u64,
    observed: u64,
    severity: int,
    severityText: string,
    body: Option<PAny>,
    attributes: seq<PKeyValue>,
    traceId: seq<byte>,
    spanId: seq<byte>)

  datatype PScope = PScope(name: Option<string>, records: seq<PRecord>)

  datatype PResource = PResource(attributes: Option<seq<PKeyValue>>, scopes: seq<PScope>)

  function NonZero(nanos: u64): Option<int> {
    if nanos != 0 then Some(nanos) else None
  }

  function TimeP(r: PRecord, receivedAt: int): int {
    if r.time != 0 then r.time else if r.observed != 0 then r.observed else receivedAt
  }

  /** `resource_attrs.get("service.name").and_then(as_str)`: an empty string is kept. */
  function ServiceP(resource: Attributes): Option<string> {
    if "service.name" in resource && resource["service.name"].JString? then Some(resource["service.name"].s) else None
  }

  function FieldsP(lib: Library, w: Window, resource: Attributes, scope: Option<string>, r: PRecord): LogFields {
    LogFields(
      w.receivedAt,
      TimeP(r, w.receivedAt),
      NonZero(r.observed),
      if r.severity != 0 then Some(ClampSeverity(r.severity)) else None,
      NonEmpty(Some(r.severityText)),
      if r.body.Some? then Some(BodyText(lib, JsonOfP(r.body.value))) else None,
      ServiceP(resource),
      NonEmpty(scope),
      HexOpt(r.traceId),
      HexOpt(r.spanId),
      MapOfP(r.attributes),
      resource)
  }

  function SlotP(lib: Library, w: Window, resource: Attributes, scope: Option<string>, r: PRecord): Slot<StoredLog> {
    if w.Holds(TimeP(r, w.receivedAt)) then Kept(Assemble(lib, FieldsP(lib, w, resource, scope, r))) else Skewed
  }

  function ResourceAttrsP(rl: PResource): Attributes {
    if rl.attributes.Some? then MapOfP(rl.attributes.value) else map[]
  }

  function RecordSlotsP(lib: Library, w: Window, resource: Attributes, scope: Option<string>, rs: seq<PRecord>)
    : seq<Slot<StoredLog>>
  {
    seq(|rs|, k requires 0 <= k < |rs| => SlotP(lib, w, resource, scope, rs[k]))
  }

  function ScopeListsP(lib: Library, w: Window, resource: Attributes, ss: seq<PScope>): seq<seq<Slot<StoredLog>>> {
    seq(|ss|, j requires 0 <= j < |ss| => RecordSlotsP(lib, w, resource, ss[j].name, ss[j].records))
  }

  function ResourceListsP(lib: Library, w: Window, req: seq<PResource>): seq<seq<Slot<StoredLog>>> {
    seq(|req|, i requires 0 <= i < |req| => Flat(ScopeListsP(lib, w, ResourceAttrsP(req[i]), req[i].scopes)))
  }

  /** The uncapped flattening of a request. */
  function SlotsP(lib: Library, w: Window, req: seq<PResource>): seq<Slot<StoredLog>> {
    Flat(ResourceListsP(lib, w, req))
  }

  // ---------------------------------------------------------------- the loops

  method AttrsToMapJ(attrs: seq<JKeyValue>) returns (m: Attributes)
    ensures m == MapOfJ(attrs)
  {
    m := map[];
    for i := 0 to |attrs|
      invariant m == MapOfJ(attrs[..i])
    {
      assert attrs[..i + 1][..i] == attrs[..i];
      var v := if attrs[i].value.Some? then JsonOfJ(attrs[i].value.value) else JNull;
      m := m[attrs[i].key := v];
    }
    assert attrs[..|attrs|] == attrs;
  }

  method AttrsToMapP(attrs: seq<PKeyValue>) returns (m: Attributes)
    ensures m == MapOfP(attrs)
  {
    m := map[];
    for i := 0 to |attrs|
      invariant m == MapOfP(attrs[..i])
    {
      assert attrs[..i + 1][..i] == attrs[..i];
      var v := if attrs[i].value.Some? then JsonOfP(attrs[i].value.value) else JNull;
      m := m[attrs[i].key := v];
    }
    assert attrs[..|attrs|] == attrs;
  }

  lemma Start<T>(lists: seq<seq<Slot<T>>>, before: seq<Slot<T>>, maxRecords: nat)
    ensures Capped(before + Flat(lists[..0]), maxRecords) == Capped(before, maxRecords)
    ensures Flat(lists[..0]) == [] && Capped<T>([], maxRecords) == Parse([], 0)
  {
    assert before + [] == before;
  }

  /** `otlp_to_logs`: flattens a JSON request, one record more than the cap at most. */
  method OtlpToLogs(lib: Library, w: Window, req: seq<JResource>, maxRecords: nat) returns (out: Parse<StoredLog>)
    ensures out == Capped(SlotsJ(lib, w, req), maxRecords)
  {
    hide SlotJ, Capped, Flat;
    ghost var outer := ResourceListsJ(lib, w, req);
    out := Parse([], 0);
    Start(outer, [], maxRecords);
    label records:
    for i := 0 to |req|
      invariant out == Capped(Flat(outer[..i]), maxRecords)
    {
      var rl := req[i];
      var resource: Attributes := map[];
      if rl.attributes.Some? {
        resource := AttrsToMapJ(rl.attributes.value);
      }
      ghost var inner := ScopeListsJ(lib, w, resource, rl.scopes);
      Start(inner, Flat(outer[..i]), maxRecords);
      for j := 0 to |rl.scopes|
        invariant out == Capped(Flat(outer[..i]) + Flat(inner[..j]), maxRecords)
      {
        var s := rl.scopes[j];
        ghost var before, slots := Flat(outer[..i]) + Flat(inner[..j]), inner[j];
        assert before + slots[..0] == before;
        for k := 0 to |s.records|
          invariant out == Capped(before + slots[..k], maxRecords)
        {
          if |out.stored| > maxRecords {
            BreakInside(outer, i, inner, j, slots[..k], maxRecords);
            break records;
          }
          var slot := SlotJ(lib, w, resource, s.name, s.records[k]);
          assert before + slots[..k + 1] == before + slots[..k] + [slot];
          CappedStep(before + slots[..k], slot, maxRecords);
          match slot {
            case Skewed => out := out.(droppedSkew := out.droppedSkew + 1);
            case Kept(v) => out := out.(stored := out.stored + [v]);
          }
        }
        assert slots[..|s.records|] == slots;
        FlatStep(inner, j);
        assert before + slots == Flat(outer[..i]) + (Flat(inner[..j]) + slots);
      }
      assert inner[..|rl.scopes|] == inner;
      FlatStep(outer, i);
    }
    assert outer[..|req|] == outer;
  }

  /** `proto_to_logs`: the same walk over a protobuf request. */
  method ProtoToLogs(lib: Library, w: Window, req: seq<PResource>, maxRecords: nat) returns (out: Parse<StoredLog>)
    ensures out == Capped(SlotsP(lib, w, req), maxRecords)
  {
    hide SlotP, Capped, Flat;
    ghost var outer := ResourceListsP(lib, w, req);
    out := Parse([], 0);
    Start(outer, [], maxRecords);
    label records:
    for i := 0 to |req|
      invariant out == Capped(Flat(outer[..i]), maxRecords)
    {
      var rl := req[i];
      var resource: Attributes := map[];
      if rl.attributes.Some? {
        resource := AttrsToMapP(rl.attributes.value);
      }
      ghost var inner := ScopeListsP(lib, w, resource, rl.scopes);
      Start(inner, Flat(outer[..i]), maxRecords);
      for j := 0 to |rl.scopes|
        invariant out == Capped(Flat(outer[..i]) + Flat(inner[..j]), maxRecords)
      {
        var s := rl.scopes[j];
        ghost var before, slots := Flat(outer[..i]) + Flat(inner[..j]), inner[j];
        assert before + slots[..0] == before;
        for k := 0 to |s.records|
          invariant out == Capped(before + slots[..k], maxRecords)
        {
          if |out.stored| > maxRecords {
            BreakInside(outer, i, inner, j, slots[..k], maxRecords);
            break records;
          }
          var slot := SlotP(lib, w, resource, s.name, s.records[k]);
          assert before + slots[..k + 1] == before + slots[..k] + [slot];
          CappedStep(before + slots[..k], slot, maxRecords);
          match slot {
            case Skewed => out := out.(droppedSkew := out.droppedSkew + 1);
            case Kept(v) => out := out.(stored := out.stored + [v]);
          }
        }
        assert slots[..|s.records|] == slots;
        FlatStep(inner, j);
        assert before + slots == Flat(outer[..i]) + (Flat(inner[..j]) + slots);
      }
      assert inner[..|rl.scopes|] == inner;
      FlatStep(outer, i);
    }
    assert outer[..|req|] == outer;
  }

}

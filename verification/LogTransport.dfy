/**
 * The same log export, sent as JSON or as protobuf, is stored alike: the same records kept, the same ids, the
 * same columns up to an absent value in place of an empty one.
 */
module LogTransport {
  import opened Common
  import opened Otlp
  import opened Transport
  import opened DedupId
  import opened Flatten
  import opened Logs

  // ---------------------------------------------------------------- the encoding of a request

  /** A time of 0 may be left out. */
  ghost predicate EncodesTime(n: u64, t: Option<StringOrNum>) {
    if t.None? then n == 0 else EncodesInt(n, t.value)
  }

  function LowerChar(c: char): char {
    if 'A' <= c <= 'Z' then (c as int + 32) as char else c
  }

  function Lower(s: string): (r: string)
    ensures |r| == |s|
  {
    if s == "" then "" else [LowerChar(s[0])] + Lower(s[1..])
  }

  /** Trace and span ids are hexadecimal, in either case; an empty one may be left out. */
  ghost predicate EncodesId(bytes: seq<byte>, id: Option<string>) {
    if id.None? then bytes == [] else Lower(id.value) == Hex(bytes)
  }

  ghost predicate EncodesRecord(p: PRecord, j: JRecord) {
    && EncodesTime(p.time, j.time) && EncodesTime(p.observed, j.observed)
    && (if j.severity.None? then p.severity == 0 else j.severity.value == p.severity)
    && OrEmpty(j.severityText) == p.severityText
    && (if p.body.None? then j.body.None? else j.body.Some? && Encodes(p.body.value, j.body.value))
    && EncodesKvs(p.attributes, j.attributes)
    && EncodesId(p.traceId, j.traceId) && EncodesId(p.spanId, j.spanId)
  }

  ghost predicate EncodesScope(p: PScope, j: JScope) {
    && OrEmpty(p.name) == OrEmpty(j.name)
    && |p.records| == |j.records| && forall k :: 0 <= k < |p.records| ==> EncodesRecord(p.records[k], j.records[k])
  }

  ghost predicate EncodesResource(p: PResource, j: JResource) {
    && (if p.attributes.None? then j.attributes.None?
        else j.attributes.Some? && EncodesKvs(p.attributes.value, j.attributes.value))
    && |p.scopes| == |j.scopes| && forall k :: 0 <= k < |p.scopes| ==> EncodesScope(p.scopes[k], j.scopes[k])
  }

  ghost predicate EncodesRequest(p: seq<PResource>, j: seq<JResource>) {
    |p| == |j| && forall k :: 0 <= k < |p| ==> EncodesResource(p[k], j[k])
  }

  // ---------------------------------------------------------------- the portable fragment

  predicate LowerCaseId(id: Option<string>) {
    id.Some? ==> Lower(id.value) == id.value
  }

  ghost predicate PortableRecord(p: PRecord, j: JRecord) {
    && (p.body.Some? ==> Portable(p.body.value)) && PortableKvs(p.attributes)
    && LowerCaseId(j.traceId) && LowerCaseId(j.spanId)
  }

  /** Every record inside the window is portable, and so are its resource attributes. */
  ghost predicate PortableScope(w: Window, resource: bool, p: PScope, j: JScope)
    requires EncodesScope(p, j)
  {
    forall k :: 0 <= k < |p.records| && w.Holds(TimeP(p.records[k], w.receivedAt)) ==>
      resource && PortableRecord(p.records[k], j.records[k])
  }

  ghost predicate PortableAttributes(p: PResource) {
    p.attributes.Some? ==> PortableKvs(p.attributes.value)
  }

  ghost predicate PortableResource(w: Window, p: PResource, j: JResource)
    requires EncodesResource(p, j)
  {
    forall s :: 0 <= s < |p.scopes| ==> PortableScope(w, PortableAttributes(p), p.scopes[s], j.scopes[s])
  }

  ghost predicate PortableRequest(w: Window, p: seq<PResource>, j: seq<JResource>)
    requires EncodesRequest(p, j)
  {
    forall i :: 0 <= i < |p| ==> PortableResource(w, p[i], j[i])
  }

  // ---------------------------------------------------------------- the printer of values

  ghost predicate TextSeparates(lib: Library, v: Json, w: Json) {
    lib.text(v) == lib.text(w) ==> v == w
  }

  /** The printer tells the two forms of the body apart. */
  ghost predicate BodySeparates(lib: Library, p: PRecord, j: JRecord)
    requires EncodesRecord(p, j)
  {
    p.body.Some? ==> TextSeparates(lib, JsonOfJ(j.body.value), JsonOfP(p.body.value))
  }

  ghost predicate BodiesSeparate(lib: Library, w: Window, p: seq<PResource>, j: seq<JResource>)
    requires EncodesRequest(p, j)
  {
    forall i :: 0 <= i < |p| ==> ResourceBodiesSeparate(lib, w, p[i], j[i])
  }

  ghost predicate ResourceBodiesSeparate(lib: Library, w: Window, p: PResource, j: JResource)
    requires EncodesResource(p, j)
  {
    forall s :: 0 <= s < |p.scopes| ==> ScopeBodiesSeparate(lib, w, p.scopes[s], j.scopes[s])
  }

  ghost predicate ScopeBodiesSeparate(lib: Library, w: Window, p: PScope, j: JScope)
    requires EncodesScope(p, j)
  {
    forall k :: 0 <= k < |p.records| && w.Holds(TimeP(p.records[k], w.receivedAt)) ==>
      BodySeparates(lib, p.records[k], j.records[k])
  }

  lemma BodyAgrees(lib: Library, p: PAny, j: JAny)
    requires Encodes(p, j) && TextSeparates(lib, JsonOfJ(j), JsonOfP(p))
    ensures BodyText(lib, JsonOfJ(j)) == BodyText(lib, JsonOfP(p)) <==> Portable(p)
  {
    ValuesAgreeExactly(p, j);
    assert JsonOfJ(j).JString? <==> JsonOfP(p).JString?;
  }

  // ---------------------------------------------------------------- stored alike

  function OrZero(n: Option<Severity>): Severity {
    if n.Some? then n.value else 0
  }

  /** The same row, where an absent text counts as empty and an absent severity as 0. */
  ghost predicate SameRow(a: StoredLog, b: StoredLog) {
    && a.logId == b.logId && a.logTime == b.logTime && a.observedTime == b.observedTime && a.receivedAt == b.receivedAt
    && OrZero(a.severityNumber) == OrZero(b.severityNumber) && OrEmpty(a.severityText) == OrEmpty(b.severityText)
    && a.body == b.body && OrEmpty(a.serviceName) == OrEmpty(b.serviceName)
      && OrEmpty(a.scopeName) == OrEmpty(b.scopeName)
    && a.traceId == b.traceId && a.spanId == b.spanId
    && a.tenantId == b.tenantId && a.actorId == b.actorId && a.sessionId == b.sessionId
    && a.resourceAttributes == b.resourceAttributes && a.logAttributes == b.logAttributes
  }

  ghost predicate SameSlot(a: Slot<StoredLog>, b: Slot<StoredLog>) {
    (a.Skewed? && b.Skewed?) || (a.Kept? && b.Kept? && SameRow(a.value, b.value))
  }

  ghost predicate SameSlots(a: seq<Slot<StoredLog>>, b: seq<Slot<StoredLog>>) {
    |a| == |b| && forall k :: 0 <= k < |a| ==> SameSlot(a[k], b[k])
  }

  lemma TimesAgree(n: u64, t: Option<StringOrNum>)
    requires EncodesTime(n, t)
    ensures PositiveNanos(t) == NonZero(n)
  {
    if t.Some? {
      IntAgrees(n, t.value);
    }
  }

  lemma IdsAgree(bytes: seq<byte>, id: Option<string>)
    requires EncodesId(bytes, id)
    ensures NonEmpty(id) == HexOpt(bytes) <==> LowerCaseId(id)
  {
  }

  lemma ServicesAgree(resource: Attributes)
    ensures OrEmpty(Lookup(resource, "service.name")) == OrEmpty(ServiceP(resource))
  {
  }

  lemma EmptyIsAbsent(s: Option<string>)
    ensures OrEmpty(NonEmpty(s)) == OrEmpty(s)
  {
  }

  lemma TimeByFields(p: PRecord, j: JRecord, receivedAt: int)
    requires EncodesTime(p.time, j.time) && EncodesTime(p.observed, j.observed)
    ensures TimeJ(j, receivedAt) == TimeP(p, receivedAt)
  {
    TimesAgree(p.time, j.time);
    TimesAgree(p.observed, j.observed);
  }

  lemma FieldsAgree(lib: Library, w: Window, resource: Attributes, ps: Option<string>, js: Option<string>,
                    p: PRecord, j: JRecord)
    requires EncodesRecord(p, j) && PortableRecord(p, j) && OrEmpty(ps) == OrEmpty(js)
    ensures var a, b := FieldsJ(lib, w, resource, js, j), FieldsP(lib, w, resource, ps, p);
            && a.receivedAt == b.receivedAt && a.logTime == b.logTime && a.observedTime == b.observedTime
            && OrZero(a.severityNumber) == OrZero(b.severityNumber)
            && OrEmpty(a.severityText) == OrEmpty(b.severityText)
            && a.body == b.body && OrEmpty(a.serviceName) == OrEmpty(b.serviceName)
            && OrEmpty(a.scopeName) == OrEmpty(b.scopeName)
            && a.traceId == b.traceId && a.spanId == b.spanId && a.logAttrs == b.logAttrs
              && a.resourceAttrs == b.resourceAttrs
  {
    hide JsonOfJ, JsonOfP, MapOfJ, MapOfP, Lookup, EncodesKvs, PortableKvs, Encodes, Portable, EncodesTime, EncodesId,
         PositiveNanos, NonZero, HexOpt, NonEmpty, LowerCaseId;
    ServicesAgree(resource);
    EmptyIsAbsent(js);
    EmptyIsAbsent(ps);
    EmptyIsAbsent(Some(p.severityText));
    TimeByFields(p, j, w.receivedAt);
    TimesAgree(p.observed, j.observed);
    IdsAgree(p.traceId, j.traceId);
    IdsAgree(p.spanId, j.spanId);
    AttributesAgreeExactly(p.attributes, j.attributes);
    if p.body.Some? {
      ValuesAgreeExactly(p.body.value, j.body.value);
    }
  }

  /** One record: the rows are the same exactly when the record and its resource are portable. */
  lemma RowAgreesExactly(lib: Library, w: Window, rj: Attributes, rp: Attributes, ps: Option<string>,
                         js: Option<string>,
                         p: PRecord, j: JRecord)
    requires EncodesRecord(p, j) && BodySeparates(lib, p, j) && OrEmpty(ps) == OrEmpty(js)
    ensures SameRow(Assemble(lib, FieldsJ(lib, w, rj, js, j)), Assemble(lib, FieldsP(lib, w, rp, ps, p)))
            <==> rj == rp && PortableRecord(p, j)
  {
    if rj == rp && PortableRecord(p, j) {
      FieldsAgree(lib, w, rj, ps, js, p, j);
      hide FieldsJ, FieldsP, Correlated, Preimage;
    } else {
      RowsDiffer(lib, w, rj, rp, ps, js, p, j);
    }
  }

  lemma RowsDiffer(lib: Library, w: Window, rj: Attributes, rp: Attributes, ps: Option<string>, js: Option<string>,
                   p: PRecord, j: JRecord)
    requires EncodesRecord(p, j) && BodySeparates(lib, p, j) && !(rj == rp && PortableRecord(p, j))
    ensures !SameRow(Assemble(lib, FieldsJ(lib, w, rj, js, j)), Assemble(lib, FieldsP(lib, w, rp, ps, p)))
  {
    hide JsonOfJ, JsonOfP, MapOfJ, MapOfP, Lookup, EncodesKvs, PortableKvs, Encodes, Portable, EncodesTime, EncodesId,
         PositiveNanos, NonZero, HexOpt, NonEmpty, LowerCaseId, Correlated, Preimage, KeyOf, BodyText;
    IdsAgree(p.traceId, j.traceId);
    IdsAgree(p.spanId, j.spanId);
    AttributesAgreeExactly(p.attributes, j.attributes);
    if p.body.Some? {
      BodyAgrees(lib, p.body.value, j.body.value);
    }
  }

  lemma SlotAgreesExactly(lib: Library, w: Window, rj: Attributes, rp: Attributes, ps: Option<string>,
                          js: Option<string>,
                          p: PRecord, j: JRecord)
    requires EncodesRecord(p, j) && OrEmpty(ps) == OrEmpty(js)
    requires w.Holds(TimeP(p, w.receivedAt)) ==> BodySeparates(lib, p, j)
    ensures SameSlot(SlotJ(lib, w, rj, js, j), SlotP(lib, w, rp, ps, p))
            <==> (w.Holds(TimeP(p, w.receivedAt)) ==> rj == rp && PortableRecord(p, j))
  {
    if w.Holds(TimeP(p, w.receivedAt)) { RowAgreesExactly(lib, w, rj, rp, ps, js, p, j); }
    TimeByFields(p, j, w.receivedAt);
    hide FieldsJ, FieldsP, Assemble, SameRow, PortableRecord, BodySeparates, EncodesRecord, TimeJ, TimeP;
  }

  lemma ResourcesAgree(p: PResource, j: JResource)
    requires EncodesResource(p, j)
    ensures ResourceAttrsJ(j) == ResourceAttrsP(p) <==> PortableAttributes(p)
  {
    if p.attributes.Some? {
      AttributesAgreeExactly(p.attributes.value, j.attributes.value);
    }
  }

  lemma ScopeAgreesExactly(lib: Library, w: Window, rj: Attributes, rp: Attributes, p: PScope, j: JScope)
    requires EncodesScope(p, j) && ScopeBodiesSeparate(lib, w, p, j)
    ensures SameSlots(RecordSlotsJ(lib, w, rj, j.name, j.records), RecordSlotsP(lib, w, rp, p.name, p.records))
            <==> PortableScope(w, rj == rp, p, j)
  {
    hide SlotJ, SlotP, SameSlot, EncodesRecord, PortableRecord, BodySeparates, TimeP;
    var a, b := RecordSlotsJ(lib, w, rj, j.name, j.records), RecordSlotsP(lib, w, rp, p.name, p.records);
    forall k | 0 <= k < |p.records|
      ensures SameSlot(a[k], b[k]) <==>
                (w.Holds(TimeP(p.records[k], w.receivedAt)) ==> rj == rp && PortableRecord(p.records[k], j.records[k]))
    {
      SlotAgreesExactly(lib, w, rj, rp, p.name, j.name, p.records[k], j.records[k]);
    }
  }

  lemma SlotsConcat(a: seq<Slot<StoredLog>>, b: seq<Slot<StoredLog>>, c: seq<Slot<StoredLog>>, d: seq<Slot<StoredLog>>)
    requires |a| == |c| && |b| == |d|
    ensures SameSlots(a + b, c + d) <==> SameSlots(a, c) && SameSlots(b, d)
  {
    hide SameSlot;
    if SameSlots(a + b, c + d) {
      assert forall k :: 0 <= k < |a| ==> (a + b)[k] == a[k] && (c + d)[k] == c[k];
      assert forall k :: 0 <= k < |b| ==> (a + b)[|a| + k] == b[k] && (c + d)[|a| + k] == d[k];
    }
  }

  lemma {:induction false} FlatAgrees(a: seq<seq<Slot<StoredLog>>>, b: seq<seq<Slot<StoredLog>>>)
    requires |a| == |b| && forall i :: 0 <= i < |a| ==> |a[i]| == |b[i]|
    ensures |Flat(a)| == |Flat(b)|
    ensures SameSlots(Flat(a), Flat(b)) <==> forall i :: 0 <= i < |a| ==> SameSlots(a[i], b[i])
    decreases |a|
  {
    hide SameSlots;
    if a == [] {
      NoSlots();
    } else {
      var n := |a| - 1;
      FlatAgrees(a[..n], b[..n]);
      SlotsConcat(Flat(a[..n]), a[n], Flat(b[..n]), b[n]);
    }
  }

  lemma NoSlots()
    ensures SameSlots([], [])
  {
  }

  lemma ScopeSizes(p: PScope, j: JScope)
    requires EncodesScope(p, j)
    ensures |p.records| == |j.records|
  {
  }

  lemma ResourceAgreesExactly(lib: Library, w: Window, p: PResource, j: JResource)
    requires EncodesResource(p, j) && ResourceBodiesSeparate(lib, w, p, j)
    ensures var (a, b) := (Flat(ScopeListsJ(lib, w, ResourceAttrsJ(j), j.scopes)),
                           Flat(ScopeListsP(lib, w, ResourceAttrsP(p), p.scopes)));
            |a| == |b| && (SameSlots(a, b) <==> PortableResource(w, p, j))
  {
    ResourcesAgree(p, j);
    hide SlotJ, SlotP, SameSlots, EncodesScope, PortableScope, ScopeBodiesSeparate, ResourceAttrsJ, ResourceAttrsP,
         PortableAttributes;
    var (rj, rp) := (ResourceAttrsJ(j), ResourceAttrsP(p));
    var (a, b) := (ScopeListsJ(lib, w, rj, j.scopes), ScopeListsP(lib, w, rp, p.scopes));
    forall s | 0 <= s < |p.scopes|
      ensures |a[s]| == |b[s]| && (SameSlots(a[s], b[s])
                                   <==> PortableScope(w, PortableAttributes(p), p.scopes[s], j.scopes[s]))
    {
      ScopeAgreesExactly(lib, w, rj, rp, p.scopes[s], j.scopes[s]);
      ScopeSizes(p.scopes[s], j.scopes[s]);
    }
    FlatAgrees(a, b);
  }

  /** Both transports store the same records of an export, in the same order, exactly when they are portable. */
  lemma TransportsAgreeExactly(lib: Library, w: Window, p: seq<PResource>, j: seq<JResource>)
    requires EncodesRequest(p, j) && BodiesSeparate(lib, w, p, j)
    ensures SameSlots(SlotsJ(lib, w, j), SlotsP(lib, w, p)) <==> PortableRequest(w, p, j)
  {
    hide SlotJ, SlotP, SameSlots, EncodesResource, PortableResource, ResourceBodiesSeparate, ScopeListsJ, ScopeListsP,
         ResourceAttrsJ, ResourceAttrsP;
    var a, b := ResourceListsJ(lib, w, j), ResourceListsP(lib, w, p);
    forall i | 0 <= i < |p|
      ensures |a[i]| == |b[i]| && (SameSlots(a[i], b[i]) <==> PortableResource(w, p[i], j[i]))
    {
      ResourceAgreesExactly(lib, w, p[i], j[i]);
    }
    FlatAgrees(a, b);
  }

  lemma {:induction false} CappedAgree(a: seq<Slot<StoredLog>>, b: seq<Slot<StoredLog>>, maxRecords: nat)
    requires SameSlots(a, b)
    ensures var x, y := Capped(a, maxRecords), Capped(b, maxRecords);
            && x.droppedSkew == y.droppedSkew && |x.stored| == |y.stored|
            && forall k :: 0 <= k < |x.stored| ==> SameRow(x.stored[k], y.stored[k])
    decreases |a|
  {
    if a != [] {
      hide SameRow;
      var n := |a| - 1;
      CappedAgree(a[..n], b[..n], maxRecords);
      assert SameSlot(a[n], b[n]);
    }
  }

  /** A portable body is the same value in both forms, so any printer will do. */
  lemma PortableSeparates(lib: Library, w: Window, p: seq<PResource>, j: seq<JResource>)
    requires EncodesRequest(p, j) && PortableRequest(w, p, j)
    ensures BodiesSeparate(lib, w, p, j)
  {
    hide EncodesRecord, PortableRecord, BodySeparates, TimeP;
    forall i, s, k | 0 <= i < |p| && 0 <= s < |p[i].scopes| && 0 <= k < |p[i].scopes[s].records|
                     && w.Holds(TimeP(p[i].scopes[s].records[k], w.receivedAt))
      ensures EncodesRecord(p[i].scopes[s].records[k], j[i].scopes[s].records[k])
      ensures BodySeparates(lib, p[i].scopes[s].records[k], j[i].scopes[s].records[k])
    {
      assert EncodesResource(p[i], j[i]) && PortableResource(w, p[i], j[i]);
      assert EncodesScope(p[i].scopes[s], j[i].scopes[s]);
      assert PortableScope(w, PortableAttributes(p[i]), p[i].scopes[s], j[i].scopes[s]);
      PortableBody(lib, p[i].scopes[s].records[k], j[i].scopes[s].records[k]);
    }
  }

  lemma PortableBody(lib: Library, p: PRecord, j: JRecord)
    requires EncodesRecord(p, j) && PortableRecord(p, j)
    ensures BodySeparates(lib, p, j)
  {
    if p.body.Some? {
      ValuesAgreeExactly(p.body.value, j.body.value);
    }
  }

  /** With a cap, too, both transports keep the same records of a portable export, under the same ids. */
  lemma TransportIndependence(lib: Library, w: Window, p: seq<PResource>, j: seq<JResource>, maxRecords: nat)
    requires EncodesRequest(p, j) && PortableRequest(w, p, j)
    ensures var x, y := Capped(SlotsJ(lib, w, j), maxRecords), Capped(SlotsP(lib, w, p), maxRecords);
            && x.droppedSkew == y.droppedSkew && |x.stored| == |y.stored|
            && forall k :: 0 <= k < |x.stored| ==> SameRow(x.stored[k], y.stored[k])
  {
    PortableSeparates(lib, w, p, j);
    TransportsAgreeExactly(lib, w, p, j);
    CappedAgree(SlotsJ(lib, w, j), SlotsP(lib, w, p), maxRecords);
  }

  // ---------------------------------------------------------------- rows that are literally the same

  /** Nothing in the record, its scope or its service is given as empty or 0 where the other transport has nothing. */
  ghost predicate IdenticalRecord(service: Option<string>, scope: Option<string>, p: PRecord, j: JRecord) {
    && PortableRecord(p, j) && j.severityText != Some("") && j.severity != Some(0)
    && scope != Some("") && service != Some("")
  }

  lemma EmptyShows(js: Option<string>, ps: Option<string>)
    requires OrEmpty(js) == OrEmpty(ps)
    ensures js == NonEmpty(ps) <==> js != Some("")
  {
  }

  lemma LookupShows(resource: Attributes)
    ensures Lookup(resource, "service.name") == ServiceP(resource) <==> ServiceP(resource) != Some("")
  {
  }

  /** One record: the rows are equal, columns that are NULL included. */
  lemma RowEqualExactly(lib: Library, w: Window, rj: Attributes, rp: Attributes, ps: Option<string>, js: Option<string>,
                        p: PRecord, j: JRecord)
    requires EncodesRecord(p, j) && BodySeparates(lib, p, j) && OrEmpty(ps) == OrEmpty(js)
    ensures Assemble(lib, FieldsJ(lib, w, rj, js, j)) == Assemble(lib, FieldsP(lib, w, rp, ps, p))
            <==> rj == rp && IdenticalRecord(ServiceP(rp), js, p, j)
  {
    RowAgreesExactly(lib, w, rj, rp, ps, js, p, j);
    EmptyShows(js, ps);
    EmptyShows(j.severityText, Some(p.severityText));
    LookupShows(rp);
    hide Correlated, KeyOf, Preimage, PortableRecord, JsonOfJ, JsonOfP, MapOfJ, MapOfP, BodyText, TimeJ, TimeP,
         PositiveNanos, NonZero, HexOpt, NonEmpty, Lookup, ServiceP, Encodes, EncodesKvs, EncodesTime, EncodesId;
  }

  lemma SlotEqualExactly(lib: Library, w: Window, rj: Attributes, rp: Attributes, ps: Option<string>,
                         js: Option<string>,
                         p: PRecord, j: JRecord)
    requires EncodesRecord(p, j) && OrEmpty(ps) == OrEmpty(js)
    requires w.Holds(TimeP(p, w.receivedAt)) ==> BodySeparates(lib, p, j)
    ensures SlotJ(lib, w, rj, js, j) == SlotP(lib, w, rp, ps, p)
            <==> (w.Holds(TimeP(p, w.receivedAt)) ==> rj == rp && IdenticalRecord(ServiceP(rp), js, p, j))
  {
    if w.Holds(TimeP(p, w.receivedAt)) { RowEqualExactly(lib, w, rj, rp, ps, js, p, j); }
    TimeByFields(p, j, w.receivedAt);
    hide FieldsJ, FieldsP, Assemble, IdenticalRecord, BodySeparates, EncodesRecord, TimeJ, TimeP;
  }

  ghost predicate IdenticalScope(w: Window, same: bool, service: Option<string>, p: PScope, j: JScope)
    requires EncodesScope(p, j)
  {
    forall k :: 0 <= k < |p.records| && w.Holds(TimeP(p.records[k], w.receivedAt)) ==>
      same && IdenticalRecord(service, j.name, p.records[k], j.records[k])
  }

  ghost predicate IdenticalResource(w: Window, p: PResource, j: JResource)
    requires EncodesResource(p, j)
  {
    forall s :: 0 <= s < |p.scopes| ==>
      IdenticalScope(w, PortableAttributes(p), ServiceP(ResourceAttrsP(p)), p.scopes[s], j.scopes[s])
  }

  ghost predicate IdenticalRequest(w: Window, p: seq<PResource>, j: seq<JResource>)
    requires EncodesRequest(p, j)
  {
    forall i :: 0 <= i < |p| ==> IdenticalResource(w, p[i], j[i])
  }

  lemma ScopeEqualExactly(lib: Library, w: Window, rj: Attributes, rp: Attributes, p: PScope, j: JScope)
    requires EncodesScope(p, j) && ScopeBodiesSeparate(lib, w, p, j)
    ensures RecordSlotsJ(lib, w, rj, j.name, j.records) == RecordSlotsP(lib, w, rp, p.name, p.records)
            <==> IdenticalScope(w, rj == rp, ServiceP(rp), p, j)
  {
    hide SlotJ, SlotP, EncodesRecord, IdenticalRecord, BodySeparates, TimeP, ServiceP;
    var a, b := RecordSlotsJ(lib, w, rj, j.name, j.records), RecordSlotsP(lib, w, rp, p.name, p.records);
    forall k | 0 <= k < |p.records|
      ensures a[k] == b[k] <==> (w.Holds(TimeP(p.records[k], w.receivedAt)) ==>
                rj == rp && IdenticalRecord(ServiceP(rp), j.name, p.records[k], j.records[k]))
    {
      SlotEqualExactly(lib, w, rj, rp, p.name, j.name, p.records[k], j.records[k]);
    }
    assert a == b <==> forall k :: 0 <= k < |p.records| ==> a[k] == b[k];
  }

  lemma {:induction false} FlatEqual<T>(a: seq<seq<T>>, b: seq<seq<T>>)
    requires |a| == |b| && forall i :: 0 <= i < |a| ==> |a[i]| == |b[i]|
    ensures |Flat(a)| == |Flat(b)|
    ensures Flat(a) == Flat(b) <==> forall i :: 0 <= i < |a| ==> a[i] == b[i]
    decreases |a|
  {
    if a != [] {
      var n := |a| - 1;
      FlatEqual(a[..n], b[..n]);
      if Flat(a) == Flat(b) {
        SameSplit(Flat(a[..n]), a[n], Flat(b[..n]), b[n]);
      }
    }
  }

  lemma ResourceEqualExactly(lib: Library, w: Window, p: PResource, j: JResource)
    requires EncodesResource(p, j) && ResourceBodiesSeparate(lib, w, p, j)
    ensures var (a, b) := (Flat(ScopeListsJ(lib, w, ResourceAttrsJ(j), j.scopes)),
                           Flat(ScopeListsP(lib, w, ResourceAttrsP(p), p.scopes)));
            |a| == |b| && (a == b <==> IdenticalResource(w, p, j))
  {
    ResourcesAgree(p, j);
    hide SlotJ, SlotP, EncodesScope, IdenticalScope, ScopeBodiesSeparate, ResourceAttrsJ, ResourceAttrsP,
         PortableAttributes, ServiceP;
    var (rj, rp) := (ResourceAttrsJ(j), ResourceAttrsP(p));
    var (a, b) := (ScopeListsJ(lib, w, rj, j.scopes), ScopeListsP(lib, w, rp, p.scopes));
    forall s | 0 <= s < |p.scopes|
      ensures |a[s]| == |b[s]|
      ensures a[s] == b[s] <==> IdenticalScope(w, PortableAttributes(p), ServiceP(rp), p.scopes[s], j.scopes[s])
    {
      ScopeEqualExactly(lib, w, rj, rp, p.scopes[s], j.scopes[s]);
      ScopeSizes(p.scopes[s], j.scopes[s]);
    }
    FlatEqual(a, b);
  }

  /** Both transports store literally the same rows exactly when these are portable and nothing is given as empty. */
  lemma TransportsEqualExactly(lib: Library, w: Window, p: seq<PResource>, j: seq<JResource>)
    requires EncodesRequest(p, j) && BodiesSeparate(lib, w, p, j)
    ensures SlotsJ(lib, w, j) == SlotsP(lib, w, p) <==> IdenticalRequest(w, p, j)
  {
    hide SlotJ, SlotP, EncodesResource, IdenticalResource, ResourceBodiesSeparate, ScopeListsJ, ScopeListsP,
         ResourceAttrsJ, ResourceAttrsP;
    var a, b := ResourceListsJ(lib, w, j), ResourceListsP(lib, w, p);
    forall i | 0 <= i < |p|
      ensures |a[i]| == |b[i]| && (a[i] == b[i] <==> IdenticalResource(w, p[i], j[i]))
    {
      ResourceEqualExactly(lib, w, p[i], j[i]);
    }
    FlatEqual(a, b);
  }
}

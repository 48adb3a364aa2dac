/**
 * When a log record gets the same id over both transports: exactly when its service name is no bytes, its body
 * and attributes are portable, and its ids are in lower case. Hash and printer are taken to tell apart the
 * values that they are given here.
 */
module LogIds {
  import opened Common
  import opened Otlp
  import opened Transport
  import opened DedupId
  import opened Flatten
  import opened Logs
  import opened LogTransport

  ghost predicate HashSeparates(lib: Library, x: seq<byte>, y: seq<byte>) {
    lib.hash(x) == lib.hash(y) ==> x == y
  }

  /** Hash and printer tell the two forms of one record apart; where service or body differ, they hold no NUL. */
  ghost predicate Separated(lib: Library, a: LogFields, b: LogFields, p: PRecord, j: JRecord)
    requires EncodesRecord(p, j)
  {
    && HashSeparates(lib, Preimage(KeyOf(lib, a)), Preimage(KeyOf(lib, b)))
    && TextSeparates(lib, JObject(a.logAttrs), JObject(b.logAttrs))
    && BodySeparates(lib, p, j)
    && (OrEmpty(a.serviceName) != OrEmpty(b.serviceName) ==>
          NulFree(OrEmpty(a.serviceName)) && NulFree(OrEmpty(b.serviceName)))
    && (OrEmpty(a.body) != OrEmpty(b.body) ==> NulFree(OrEmpty(a.body)) && NulFree(OrEmpty(b.body)))
  }

  // ---------------------------------------------------------------- part by part

  lemma HexIsVisible(bytes: seq<byte>, id: Option<string>)
    requires EncodesId(bytes, id)
    ensures Visible(OrEmpty(NonEmpty(id))) && Visible(OrEmpty(HexOpt(bytes)))
    ensures |OrEmpty(NonEmpty(id))| == |OrEmpty(HexOpt(bytes))|
    ensures OrEmpty(NonEmpty(id)) == OrEmpty(HexOpt(bytes)) <==> LowerCaseId(id)
  {
    if id.Some? {
      LowerVisible(id.value);
    }
  }

  lemma {:induction false} LowerVisible(s: string)
    ensures Visible(Lower(s)) ==> Visible(s)
    ensures forall i :: 0 <= i < |s| ==> Lower(s)[i] == LowerChar(s[i])
  {
    if s != "" {
      LowerVisible(s[1..]);
      assert forall i :: 0 < i < |s| ==> s[i] == s[1..][i - 1] && Lower(s)[i] == Lower(s[1..])[i - 1];
      assert Lower(s)[0] == LowerChar(s[0]);
    }
  }

  lemma IdsTogether(t: string, s: string, t': string, s': string)
    requires |t| == |t'|
    ensures t + s == t' + s' <==> t == t' && s == s'
  {
    if t + s == t' + s' {
      SameSplit(t, s, t', s');
    }
  }

  /** What of a record decides its id over the other transport, the service name apart. */
  ghost predicate SameIdRecord(p: PRecord, j: JRecord) {
    && (p.body.Some? ==> Portable(p.body.value)) && PortableKvs(p.attributes)
    && LowerCaseId(j.traceId) && LowerCaseId(j.spanId)
  }

  lemma KeysAgree(lib: Library, w: Window, rj: Attributes, rp: Attributes, sj: Option<string>, sp: Option<string>,
                  p: PRecord, j: JRecord)
    requires EncodesRecord(p, j)
    requires Separated(lib, FieldsJ(lib, w, rj, sj, j), FieldsP(lib, w, rp, sp, p), p, j)
    ensures var (a, b) := (KeyOf(lib, FieldsJ(lib, w, rj, sj, j)), KeyOf(lib, FieldsP(lib, w, rp, sp, p)));
            && a.time == b.time && a.severity == b.severity && Distinguishable(a, b)
            && (a.service == b.service <==> OrEmpty(Lookup(rj, "service.name")) == OrEmpty(ServiceP(rp)))
            && (a.body == b.body <==> (p.body.Some? ==> Portable(p.body.value)))
            && (a.attributes == b.attributes <==> PortableKvs(p.attributes))
            && (a.traceId + a.spanId == b.traceId + b.spanId <==> LowerCaseId(j.traceId) && LowerCaseId(j.spanId))
  {
    hide JsonOfJ, JsonOfP, MapOfJ, MapOfP, Lookup, EncodesKvs, PortableKvs, Encodes, Portable, EncodesTime, EncodesId,
         PositiveNanos, NonZero, HexOpt, NonEmpty, LowerCaseId, Visible, NulFree, Preimage, BodyText;
    TimeByFields(p, j, w.receivedAt);
    HexIsVisible(p.traceId, j.traceId);
    HexIsVisible(p.spanId, j.spanId);
    IdsTogether(OrEmpty(NonEmpty(j.traceId)), OrEmpty(NonEmpty(j.spanId)), OrEmpty(HexOpt(p.traceId)),
                OrEmpty(HexOpt(p.spanId)));
    AttributesAgreeExactly(p.attributes, j.attributes);
    if p.body.Some? {
      BodyAgrees(lib, p.body.value, j.body.value);
    }
    VisibleTogether(OrEmpty(NonEmpty(j.traceId)), OrEmpty(NonEmpty(j.spanId)));
    VisibleTogether(OrEmpty(HexOpt(p.traceId)), OrEmpty(HexOpt(p.spanId)));
  }

  lemma VisibleTogether(t: string, s: string)
    requires Visible(t) && Visible(s)
    ensures Visible(t + s)
  {
  }

  /** One record, whatever its resource and scope. */
  lemma RecordIdsAgreeExactly(lib: Library, w: Window, rj: Attributes, rp: Attributes, sj: Option<string>,
                              sp: Option<string>,
                              p: PRecord, j: JRecord)
    requires EncodesRecord(p, j)
    requires Separated(lib, FieldsJ(lib, w, rj, sj, j), FieldsP(lib, w, rp, sp, p), p, j)
    ensures Assemble(lib, FieldsJ(lib, w, rj, sj, j)).logId == Assemble(lib, FieldsP(lib, w, rp, sp, p)).logId <==>
              OrEmpty(Lookup(rj, "service.name")) == OrEmpty(ServiceP(rp)) && SameIdRecord(p, j)
  {
    KeysAgree(lib, w, rj, rp, sj, sp, p, j);
    var a, b := KeyOf(lib, FieldsJ(lib, w, rj, sj, j)), KeyOf(lib, FieldsP(lib, w, rp, sp, p));
    hide FieldsJ, FieldsP, KeyOf, Preimage, Text, Distinguishable, Lookup, ServiceP;
    PreimagesAgreeExactly(a, b);
    TextsAgreeExactly(a, b);
  }

  // ---------------------------------------------------------------- the service name

  ghost predicate SentAsBytes(kv: PKeyValue) {
    kv.value.Some? && kv.value.value.value.Some? && kv.value.value.value.value.PBytes?
    && kv.value.value.value.value.bytes != []
  }

  ghost predicate BytesAsService(p: PResource) {
    p.attributes.Some?
    && exists i: nat :: IsLast(p.attributes.value, i) && p.attributes.value[i].key == "service.name"
                        && SentAsBytes(p.attributes.value[i])
  }

  lemma StringsAgree(p: PKeyValue, j: JKeyValue)
    requires EncodesKv(p, j)
    ensures ValueOfJ(j).JString? <==> ValueOfP(p).JString?
    ensures ValueOfP(p).JString? ==> (ValueOfJ(j) == ValueOfP(p) <==> !SentAsBytes(p))
    ensures SentAsBytes(p) ==> ValueOfP(p).JString?
  {
    EntriesAgreeExactly(p, j);
  }

  lemma OneLast(kvs: seq<PKeyValue>, i: nat, k: nat)
    requires IsLast(kvs, i) && IsLast(kvs, k) && kvs[i].key == kvs[k].key
    ensures i == k
  {
  }

  lemma ServiceOfEntry(ps: seq<PKeyValue>, js: seq<JKeyValue>, last: nat)
    requires EncodesKvs(ps, js) && IsLast(ps, last) && ps[last].key == "service.name"
    ensures OrEmpty(Lookup(MapOfJ(js), "service.name")) == OrEmpty(ServiceP(MapOfP(ps))) <==> !SentAsBytes(ps[last])
  {
    MapOfPLast(ps, last);
    MapOfJLast(ps, js, last);
    StringsAgree(ps[last], js[last]);
    hide MapOfP, MapOfJ, ValueOfP, ValueOfJ, EncodesKv, SentAsBytes;
  }

  /** The service name is the same text over both transports exactly when it is not sent as bytes. */
  lemma ServiceAgreesExactly(p: PResource, j: JResource)
    requires EncodesResource(p, j)
    ensures OrEmpty(Lookup(ResourceAttrsJ(j), "service.name")) == OrEmpty(ServiceP(ResourceAttrsP(p)))
            <==> !BytesAsService(p)
  {
    if p.attributes.Some? {
      var ps, js := p.attributes.value, j.attributes.value;
      MapOfPKeys(ps);
      MapOfJKeys(ps, js);
      hide MapOfP, MapOfJ, SentAsBytes;
      if "service.name" in Transport.Keys(ps) {
        var i :| 0 <= i < |ps| && ps[i].key == "service.name";
        var last := LastExists(ps, i);
        ServiceOfEntry(ps, js, last);
        forall k: nat | IsLast(ps, k) && ps[k].key == "service.name" ensures k == last {
          OneLast(ps, k, last);
        }
      }
    }
  }

  // ---------------------------------------------------------------- whole requests

  /** The same records kept, under the same ids. */
  ghost predicate SameIds(a: seq<Slot<StoredLog>>, b: seq<Slot<StoredLog>>) {
    |a| == |b| && forall k :: 0 <= k < |a| ==> SameId(a[k], b[k])
  }

  ghost predicate SameId(a: Slot<StoredLog>, b: Slot<StoredLog>) {
    (a.Skewed? && b.Skewed?) || (a.Kept? && b.Kept? && a.value.logId == b.value.logId)
  }

  lemma SlotsMatch(lib: Library, w: Window, rj: Attributes, rp: Attributes, sj: Option<string>, sp: Option<string>,
                   p: PRecord, j: JRecord)
    requires EncodesRecord(p, j)
    requires w.Holds(TimeP(p, w.receivedAt)) ==>
               Separated(lib, FieldsJ(lib, w, rj, sj, j), FieldsP(lib, w, rp, sp, p), p, j)
    ensures SameId(SlotJ(lib, w, rj, sj, j), SlotP(lib, w, rp, sp, p)) <==>
              (w.Holds(TimeP(p, w.receivedAt)) ==>
                 OrEmpty(Lookup(rj, "service.name")) == OrEmpty(ServiceP(rp)) && SameIdRecord(p, j))
  {
    if w.Holds(TimeP(p, w.receivedAt)) { RecordIdsAgreeExactly(lib, w, rj, rp, sj, sp, p, j); }
    TimeByFields(p, j, w.receivedAt);
    hide FieldsJ, FieldsP, Assemble, SameIdRecord, Lookup, ServiceP, EncodesRecord, Separated, TimeJ, TimeP;
  }

  ghost predicate SeparatedScope(lib: Library, w: Window, rj: Attributes, rp: Attributes, p: PScope, j: JScope)
    requires EncodesScope(p, j)
  {
    forall k :: 0 <= k < |p.records| && w.Holds(TimeP(p.records[k], w.receivedAt)) ==>
      Separated(lib, FieldsJ(lib, w, rj, j.name, j.records[k]), FieldsP(lib, w, rp, p.name, p.records[k]),
                p.records[k], j.records[k])
  }

  ghost predicate SeparatedResource(lib: Library, w: Window, p: PResource, j: JResource)
    requires EncodesResource(p, j)
  {
    forall s :: 0 <= s < |p.scopes| ==>
      SeparatedScope(lib, w, ResourceAttrsJ(j), ResourceAttrsP(p), p.scopes[s], j.scopes[s])
  }

  ghost predicate SeparatedRequest(lib: Library, w: Window, p: seq<PResource>, j: seq<JResource>)
    requires EncodesRequest(p, j)
  {
    forall i :: 0 <= i < |p| ==> SeparatedResource(lib, w, p[i], j[i])
  }

  /** Every record inside the window has the same id over both transports. */
  ghost predicate SameIdScope(w: Window, service: bool, p: PScope, j: JScope)
    requires EncodesScope(p, j)
  {
    forall k :: 0 <= k < |p.records| && w.Holds(TimeP(p.records[k], w.receivedAt)) ==>
      service && SameIdRecord(p.records[k], j.records[k])
  }

  ghost predicate SameIdResource(w: Window, p: PResource, j: JResource)
    requires EncodesResource(p, j)
  {
    forall s :: 0 <= s < |p.scopes| ==> SameIdScope(w, !BytesAsService(p), p.scopes[s], j.scopes[s])
  }

  ghost predicate SameIdRequest(w: Window, p: seq<PResource>, j: seq<JResource>)
    requires EncodesRequest(p, j)
  {
    forall i :: 0 <= i < |p| ==> SameIdResource(w, p[i], j[i])
  }

  lemma ScopeIds(lib: Library, w: Window, rj: Attributes, rp: Attributes, p: PScope, j: JScope)
    requires EncodesScope(p, j) && SeparatedScope(lib, w, rj, rp, p, j)
    ensures SameIds(RecordSlotsJ(lib, w, rj, j.name, j.records), RecordSlotsP(lib, w, rp, p.name, p.records))
            <==> SameIdScope(w, OrEmpty(Lookup(rj, "service.name")) == OrEmpty(ServiceP(rp)), p, j)
  {
    hide SlotJ, SlotP, SameId, SameIdRecord, Lookup, ServiceP, FieldsJ, FieldsP, Separated, EncodesRecord, TimeP;
    var a, b := RecordSlotsJ(lib, w, rj, j.name, j.records), RecordSlotsP(lib, w, rp, p.name, p.records);
    forall k | 0 <= k < |p.records|
      ensures SameId(a[k], b[k]) <==>
                (w.Holds(TimeP(p.records[k], w.receivedAt)) ==>
                   OrEmpty(Lookup(rj, "service.name")) == OrEmpty(ServiceP(rp))
                     && SameIdRecord(p.records[k], j.records[k]))
    {
      SlotsMatch(lib, w, rj, rp, j.name, p.name, p.records[k], j.records[k]);
    }
  }

  lemma SameIdsConcat(a: seq<Slot<StoredLog>>, b: seq<Slot<StoredLog>>, c: seq<Slot<StoredLog>>,
                      d: seq<Slot<StoredLog>>)
    requires |a| == |c| && |b| == |d|
    ensures SameIds(a + b, c + d) <==> SameIds(a, c) && SameIds(b, d)
  {
    hide SameId;
    if SameIds(a + b, c + d) {
      assert forall k :: 0 <= k < |a| ==> (a + b)[k] == a[k] && (c + d)[k] == c[k];
      assert forall k :: 0 <= k < |b| ==> (a + b)[|a| + k] == b[k] && (c + d)[|a| + k] == d[k];
    }
  }

  lemma {:induction false} FlatIds(a: seq<seq<Slot<StoredLog>>>, b: seq<seq<Slot<StoredLog>>>)
    requires |a| == |b| && forall i :: 0 <= i < |a| ==> |a[i]| == |b[i]|
    ensures |Flat(a)| == |Flat(b)|
    ensures SameIds(Flat(a), Flat(b)) <==> forall i :: 0 <= i < |a| ==> SameIds(a[i], b[i])
    decreases |a|
  {
    hide SameIds;
    if a == [] {
      NothingDiffers();
    } else {
      var n := |a| - 1;
      FlatIds(a[..n], b[..n]);
      SameIdsConcat(Flat(a[..n]), a[n], Flat(b[..n]), b[n]);
    }
  }

  lemma NothingDiffers()
    ensures SameIds([], [])
  {
  }

  lemma ResourceIds(lib: Library, w: Window, p: PResource, j: JResource)
    requires EncodesResource(p, j) && SeparatedResource(lib, w, p, j)
    ensures var (a, b) := (Flat(ScopeListsJ(lib, w, ResourceAttrsJ(j), j.scopes)),
                           Flat(ScopeListsP(lib, w, ResourceAttrsP(p), p.scopes)));
            |a| == |b| && (SameIds(a, b) <==> SameIdResource(w, p, j))
  {
    ServiceAgreesExactly(p, j);
    hide SlotJ, SlotP, SameIds, EncodesScope, SameIdScope, SeparatedScope, ResourceAttrsJ, ResourceAttrsP, Lookup,
         ServiceP, BytesAsService;
    var (rj, rp) := (ResourceAttrsJ(j), ResourceAttrsP(p));
    var (a, b) := (ScopeListsJ(lib, w, rj, j.scopes), ScopeListsP(lib, w, rp, p.scopes));
    forall s | 0 <= s < |p.scopes|
      ensures |a[s]| == |b[s]| && (SameIds(a[s], b[s])
                                   <==> SameIdScope(w, !BytesAsService(p), p.scopes[s], j.scopes[s]))
    {
      ScopeIds(lib, w, rj, rp, p.scopes[s], j.scopes[s]);
      ScopeSizes(p.scopes[s], j.scopes[s]);
    }
    FlatIds(a, b);
  }

  /** All records of an export have the same ids over both transports exactly when each of them is as above. */
  lemma RequestIdsAgreeExactly(lib: Library, w: Window, p: seq<PResource>, j: seq<JResource>)
    requires EncodesRequest(p, j) && SeparatedRequest(lib, w, p, j)
    ensures SameIds(SlotsJ(lib, w, j), SlotsP(lib, w, p)) <==> SameIdRequest(w, p, j)
  {
    hide SlotJ, SlotP, SameIds, EncodesResource, SameIdResource, SeparatedResource, ScopeListsJ, ScopeListsP,
         ResourceAttrsJ, ResourceAttrsP;
    var a, b := ResourceListsJ(lib, w, j), ResourceListsP(lib, w, p);
    forall i | 0 <= i < |p|
      ensures |a[i]| == |b[i]| && (SameIds(a[i], b[i]) <==> SameIdResource(w, p[i], j[i]))
    {
      ResourceIds(lib, w, p[i], j[i]);
    }
    FlatIds(a, b);
  }

  /** The cap keeps it so. */
  lemma {:induction false} CappedIds(a: seq<Slot<StoredLog>>, b: seq<Slot<StoredLog>>, maxRecords: nat)
    requires SameIds(a, b)
    ensures var x, y := Capped(a, maxRecords), Capped(b, maxRecords);
            && x.droppedSkew == y.droppedSkew && |x.stored| == |y.stored|
            && forall k :: 0 <= k < |x.stored| ==> x.stored[k].logId == y.stored[k].logId
    decreases |a|
  {
    if a != [] {
      var n := |a| - 1;
      CappedIds(a[..n], b[..n], maxRecords);
      assert SameId(a[n], b[n]);
    }
  }

  // ---------------------------------------------------------------- a record whose ids differ

  /** A log with a negative integer among its attributes, in both encodings. */
  const NEGATIVE_P := PRecord(1, 0, 0, "", None, [PKeyValue("n", Some(PAny(Some(PInt(-1)))))], [], [])
  const NEGATIVE_J := JRecord(Some(Str("1")), None, None, None, None,
                              [JKeyValue("n", Some(JUnset.(int' := Some(Str("-1")))))], None, None)

  lemma NegativeIntegerDiffers(lib: Library, w: Window, resource: Attributes)
    requires EncodesRecord(NEGATIVE_P, NEGATIVE_J) ==>
               Separated(lib, FieldsJ(lib, w, resource, None, NEGATIVE_J), FieldsP(lib, w, resource, None, NEGATIVE_P),
                         NEGATIVE_P, NEGATIVE_J)
    ensures EncodesRecord(NEGATIVE_P, NEGATIVE_J)
    ensures Assemble(lib, FieldsJ(lib, w, resource, None, NEGATIVE_J)).logId
         != Assemble(lib, FieldsP(lib, w, resource, None, NEGATIVE_P)).logId
  {
    NegativeIsEncoded();
    hide FieldsJ, FieldsP, Assemble, Separated;
    RecordIdsAgreeExactly(lib, w, resource, resource, None, None, NEGATIVE_P, NEGATIVE_J);
    assert IsLast(NEGATIVE_P.attributes, 0) && !PortableKv(NEGATIVE_P.attributes[0]);
    assert !PortableKvs(NEGATIVE_P.attributes);
  }

  lemma NegativeIsEncoded()
    ensures EncodesRecord(NEGATIVE_P, NEGATIVE_J)
  {
    assert EncodesInt(1, Str("1")) && EncodesInt(-1, Str("-1"));
    assert Encodes(PAny(Some(PInt(-1))), JUnset.(int' := Some(Str("-1"))));
    assert EncodesKv(NEGATIVE_P.attributes[0], NEGATIVE_J.attributes[0]);
  }
}

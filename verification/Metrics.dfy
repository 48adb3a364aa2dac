/** OTLP metric exports in JSON, flattened to points: gauges, then sums, then histograms of every metric. */
module Metrics {
  import opened Common
  import opened Otlp
  import opened DedupId
  import opened Flatten
  import opened Logs

  /** The hash and the JSON printer, and the bytes of an f64. */
  datatype PointLibrary = PointLibrary(lib: Library, bits: Double -> seq<byte>)

  datatype StoredMetricPoint = StoredMetricPoint(
    pointId: nat,
    time: int,
    metricName: string,
    metricType: string,
    unit: Option<string>,
    valueDouble: Option<Double>,
    valueInt: Option<i64>,
    count: Option<i64>,
    sum: Option<Double>,
    buckets: Option<Json>,
    serviceName: Option<string>,
    scopeName: Option<string>,
    tenantId: Option<string>,
    actorId: Option<string>,
    sessionId: Option<string>,
    receivedAt: int,
    resourceAttributes: Attributes,
    attributes: Attributes)

  datatype MetricFields = MetricFields(
    receivedAt: int,
    time: int,
    metricName: string,
    metricType: string,
    unit: Option<string>,
    valueDouble: Option<Double>,
    valueInt: Option<i64>,
    count: Option<i64>,
    sum: Option<Double>,
    buckets: Option<Json>,
    serviceName: Option<string>,
    scopeName: Option<string>,
    attrs: Attributes,
    resourceAttrs: Attributes)

  function OrZeroInt(n: Option<i64>): i64 {
    if n.Some? then n.value else 0
  }

  function OrZeroDouble(d: Option<Double>): Double {
    if d.Some? then d.value else Finite(0.0)
  }

  function BucketsText(lib: Library, buckets: Option<Json>): string {
    if buckets.Some? then lib.text(buckets.value) else ""
  }

  /** What the id of a point is hashed from: three texts, four numbers of eight bytes, two texts. */
  function PointPreimage(l: PointLibrary, f: MetricFields): seq<byte> {
    I64Bytes(if I64_MIN <= f.time <= I64_MAX then f.time else 0)
    + (Utf8(f.metricName) + [0]
       + (Utf8(f.metricType) + [0]
          + (Utf8(OrEmpty(f.serviceName)) + [0]
             + (PointNumbers(l, f)
                + (Utf8(BucketsText(l.lib, f.buckets)) + [0] + Utf8(l.lib.text(JObject(f.attrs))))))))
  }

  function PointNumbers(l: PointLibrary, f: MetricFields): seq<byte> {
    l.bits(OrZeroDouble(f.valueDouble)) + I64Bytes(OrZeroInt(f.valueInt))
    + (I64Bytes(OrZeroInt(f.count)) + l.bits(OrZeroDouble(f.sum)))
  }

  function AssemblePoint(l: PointLibrary, f: MetricFields): StoredMetricPoint {
    StoredMetricPoint(
      l.lib.hash(PointPreimage(l, f)),
      f.time, f.metricName, f.metricType, f.unit, f.valueDouble, f.valueInt, f.count, f.sum, f.buckets,
      f.serviceName, f.scopeName,
      Correlated(f.attrs, f.resourceAttrs, TENANT_KEYS),
      Correlated(f.attrs, f.resourceAttrs, ACTOR_KEYS),
      Correlated(f.attrs, f.resourceAttrs, SESSION_KEYS),
      f.receivedAt, f.resourceAttrs, f.attrs)
  }

  /** Explicit bounds and counts; a bound that is not finite is null. */
  function BucketsJson(bounds: seq<Double>, counts: seq<u64>): Json {
    JObject(map["bounds" := JArray(seq(|bounds|, i requires 0 <= i < |bounds| => DoubleToJson(bounds[i]))),
                "counts" := JArray(seq(|counts|, i requires 0 <= i < |counts| => JInt(counts[i])))])
  }

  datatype NumberPoint = NumberPoint(
    time: Option<StringOrNum>, asDouble: Option<Double>, asInt: Option<StringOrNum>, attributes: seq<JKeyValue>)

  datatype HistogramPoint = HistogramPoint(
    time: Option<StringOrNum>, count: Option<StringOrNum>, sum: Option<Double>, bucketCounts: seq<StringOrNum>,
    explicitBounds: seq<Double>, attributes: seq<JKeyValue>)

  datatype Metric = Metric(
    name: Option<string>,
    unit: Option<string>,
    gauge: Option<seq<NumberPoint>>,
    sum: Option<seq<NumberPoint>>,
    histogram: Option<seq<HistogramPoint>>)

  datatype ScopeMetrics = ScopeMetrics(name: Option<string>, metrics: seq<Metric>)

  datatype ResourceMetrics = ResourceMetrics(attributes: Option<seq<JKeyValue>>, scopes: seq<ScopeMetrics>)

  /** `as i64` wraps around. */
  function WrapI64(n: u64): i64 {
    if n > I64_MAX then n - 0x1_0000_0000_0000_0000 else n
  }

  function AsI64(n: Option<StringOrNum>): Option<i64> {
    if n.Some? && n.value.AsU64().Some? then Some(WrapI64(n.value.AsU64().value)) else None
  }

  /** The counts that parse. */
  function Counts(ns: seq<StringOrNum>): seq<u64> {
    if ns == [] then []
    else (if ns[0].AsU64().Some? then [ns[0].AsU64().value] else []) + Counts(ns[1..])
  }

  /** Where a point comes from. */
  datatype Origin = Origin(
    library: PointLibrary, window: Window, resource: Attributes, scope: Option<string>, name: string,
    unit: Option<string>)

  function TimeOf(time: Option<StringOrNum>, receivedAt: int): int {
    if PositiveNanos(time).Some? then PositiveNanos(time).value else receivedAt
  }

  function NumberFields(o: Origin, metricType: string, p: NumberPoint): MetricFields {
    MetricFields(
      o.window.receivedAt, TimeOf(p.time, o.window.receivedAt), o.name, metricType, o.unit,
      p.asDouble, AsI64(p.asInt), None, None, None,
      Lookup(o.resource, "service.name"), o.scope, MapOfJ(p.attributes), o.resource)
  }

  function NumberSlot(o: Origin, metricType: string, p: NumberPoint): Slot<StoredMetricPoint> {
    if !o.window.Holds(TimeOf(p.time, o.window.receivedAt)) then Skewed
    else Kept(AssemblePoint(o.library, NumberFields(o, metricType, p)))
  }

  function HistogramFields(o: Origin, p: HistogramPoint): MetricFields {
    MetricFields(
      o.window.receivedAt, TimeOf(p.time, o.window.receivedAt), o.name, "histogram", o.unit,
      None, None, AsI64(p.count), p.sum, Some(BucketsJson(p.explicitBounds, Counts(p.bucketCounts))),
      Lookup(o.resource, "service.name"), o.scope, MapOfJ(p.attributes), o.resource)
  }

  function HistogramSlot(o: Origin, p: HistogramPoint): Slot<StoredMetricPoint> {
    if !o.window.Holds(TimeOf(p.time, o.window.receivedAt)) then Skewed
    else Kept(AssemblePoint(o.library, HistogramFields(o, p)))
  }

  function NumberSlots(o: Origin, metricType: string, ps: seq<NumberPoint>): seq<Slot<StoredMetricPoint>> {
    seq(|ps|, k requires 0 <= k < |ps| => NumberSlot(o, metricType, ps[k]))
  }

  function HistogramSlots(o: Origin, ps: seq<HistogramPoint>): seq<Slot<StoredMetricPoint>> {
    seq(|ps|, k requires 0 <= k < |ps| => HistogramSlot(o, ps[k]))
  }

  /** The number data of a metric: its gauge, if it has one, then its sum. */
  function Numbers(m: Metric): seq<(string, seq<NumberPoint>)> {
    (if m.gauge.Some? then [("gauge", m.gauge.value)] else []) + (if m.sum.Some? then [("sum", m.sum.value)] else [])
  }

  /** The lists of slots of a metric: one per number data, then the histogram; none without a name. */
  function MetricLists(o: Origin, m: Metric): seq<seq<Slot<StoredMetricPoint>>> {
    if o.name == "" then []
    else
      var ns := Numbers(m);
      seq(|ns|, n requires 0 <= n < |ns| => NumberSlots(o, ns[n].0, ns[n].1))
      + (if m.histogram.Some? then [HistogramSlots(o, m.histogram.value)] else [])
  }

  function OriginOf(pl: PointLibrary, w: Window, resource: Attributes, scope: Option<string>, m: Metric): Origin {
    Origin(pl, w, resource, scope, OrEmpty(m.name), NonEmpty(m.unit))
  }

  function ScopeMetricLists(pl: PointLibrary, w: Window, resource: Attributes, s: ScopeMetrics)
    : seq<seq<Slot<StoredMetricPoint>>>
  {
    seq(|s.metrics|, l requires 0 <= l < |s.metrics| =>
      Flat(MetricLists(OriginOf(pl, w, resource, s.name, s.metrics[l]), s.metrics[l])))
  }

  function ResourceMetricLists(pl: PointLibrary, w: Window, resource: Attributes, ss: seq<ScopeMetrics>)
    : seq<seq<Slot<StoredMetricPoint>>>
  {
    seq(|ss|, j requires 0 <= j < |ss| => Flat(ScopeMetricLists(pl, w, resource, ss[j])))
  }

  function ResourceAttrs(rm: ResourceMetrics): Attributes {
    if rm.attributes.Some? then MapOfJ(rm.attributes.value) else map[]
  }

  function RequestMetricLists(pl: PointLibrary, w: Window, req: seq<ResourceMetrics>): seq<seq<Slot<StoredMetricPoint>>>
  {
    seq(|req|, i requires 0 <= i < |req| => Flat(ResourceMetricLists(pl, w, ResourceAttrs(req[i]), req[i].scopes)))
  }

  /** The uncapped flattening of a request. */
  function MetricSlots(pl: PointLibrary, w: Window, req: seq<ResourceMetrics>): seq<Slot<StoredMetricPoint>> {
    Flat(RequestMetricLists(pl, w, req))
  }

  function Store(out: Parse<StoredMetricPoint>, slot: Slot<StoredMetricPoint>): Parse<StoredMetricPoint> {
    match slot
    case Skewed => out.(droppedSkew := out.droppedSkew + 1)
    case Kept(v) => out.(stored := out.stored + [v])
  }

  lemma StoreIsAbsorb(before: seq<Slot<StoredMetricPoint>>, slots: seq<Slot<StoredMetricPoint>>, k: nat,
                      maxRecords: nat)
    requires k < |slots| && |Capped(before + slots[..k], maxRecords).stored| <= maxRecords
    ensures Store(Capped(before + slots[..k], maxRecords), slots[k]) == Capped(before + slots[..k + 1], maxRecords)
  {
    assert before + slots[..k + 1] == before + slots[..k] + [slots[k]];
    CappedStep(before + slots[..k], slots[k], maxRecords);
  }

  /** After the last slot of list i the walk stands before list i + 1. */
  lemma NextList(before: seq<Slot<StoredMetricPoint>>, lists: seq<seq<Slot<StoredMetricPoint>>>, i: nat)
    requires i < |lists|
    ensures before + Flat(lists[..i]) + lists[i] == before + Flat(lists[..i + 1])
  {
    FlatStep(lists, i);
    assert before + Flat(lists[..i]) + lists[i] == before + (Flat(lists[..i]) + lists[i]);
  }

  lemma FirstList(before: seq<Slot<StoredMetricPoint>>, lists: seq<seq<Slot<StoredMetricPoint>>>)
    ensures before + Flat(lists[..0]) == before
  {
    assert before + [] == before;
  }

  /** Walks over the points of one metric; `full` when the cap was exceeded before the last of them. */
  method WalkMetric(o: Origin, m: Metric, out0: Parse<StoredMetricPoint>, maxRecords: nat,
                    ghost before: seq<Slot<StoredMetricPoint>>)
    returns (out: Parse<StoredMetricPoint>, full: bool, ghost done: seq<Slot<StoredMetricPoint>>)
    requires out0 == Capped(before, maxRecords)
    ensures done <= Flat(MetricLists(o, m)) && out == Capped(before + done, maxRecords)
    ensures if full then |out.stored| > maxRecords else done == Flat(MetricLists(o, m))
  {
    hide NumberSlot, HistogramSlot, Capped, Flat;
    out, full := out0, false;
    ghost var lists := MetricLists(o, m);
    FirstList(before, lists);
    done := Flat(lists[..0]);
    FlatNothing(lists);
    if o.name == "" {
      assert lists[..0] == lists;
      return;
    }
    var numbers := Numbers(m);
    for n := 0 to |numbers|
      invariant done == Flat(lists[..n]) && out == Capped(before + done, maxRecords)
    {
      var (metricType, points) := numbers[n];
      ghost var slots := lists[n];
      assert before + done + slots[..0] == before + done;
      for k := 0 to |points|
        invariant out == Capped(before + done + slots[..k], maxRecords)
      {
        if |out.stored| > maxRecords {
          FlatPrefix(lists, n, slots[..k]);
          assert before + done + slots[..k] == before + (done + slots[..k]);
          done := done + slots[..k];
          return out, true, done;
        }
        StoreIsAbsorb(before + done, slots, k, maxRecords);
        out := Store(out, NumberSlot(o, metricType, points[k]));
      }
      assert slots[..|points|] == slots;
      NextList(before, lists, n);
      FlatStep(lists, n);
      done := Flat(lists[..n + 1]);
    }
    if m.histogram.Some? {
      var points := m.histogram.value;
      ghost var slots := lists[|numbers|];
      assert before + done + slots[..0] == before + done;
      for k := 0 to |points|
        invariant out == Capped(before + done + slots[..k], maxRecords)
      {
        if |out.stored| > maxRecords {
          FlatPrefix(lists, |numbers|, slots[..k]);
          assert before + done + slots[..k] == before + (done + slots[..k]);
          done := done + slots[..k];
          return out, true, done;
        }
        StoreIsAbsorb(before + done, slots, k, maxRecords);
        out := Store(out, HistogramSlot(o, points[k]));
      }
      assert slots[..|points|] == slots;
      NextList(before, lists, |numbers|);
      done := Flat(lists[..|numbers| + 1]);
      assert lists[..|numbers| + 1] == lists;
    } else {
      assert lists[..|numbers|] == lists;
    }
  }

  lemma FlatNothing(lists: seq<seq<Slot<StoredMetricPoint>>>)
    ensures Flat(lists[..0]) == [] && [] <= Flat(lists)
  {
  }

  /** `otlp_to_metrics`: one point more than the cap at most. */
  method OtlpToMetrics(pl: PointLibrary, w: Window, req: seq<ResourceMetrics>, maxRecords: nat)
    returns (out: Parse<StoredMetricPoint>)
    ensures out == Capped(MetricSlots(pl, w, req), maxRecords)
  {
    hide MetricLists, OriginOf, Capped, Flat;
    ghost var outer := RequestMetricLists(pl, w, req);
    out := Parse([], 0);
    Start(outer, [], maxRecords);
    label records:
    for i := 0 to |req|
      invariant out == Capped(Flat(outer[..i]), maxRecords)
    {
      var rm := req[i];
      var resource: Attributes := map[];
      if rm.attributes.Some? {
        resource := AttrsToMapJ(rm.attributes.value);
      }
      ghost var mid, a := ResourceMetricLists(pl, w, resource, rm.scopes), Flat(outer[..i]);
      FirstList(a, mid);
      for j := 0 to |rm.scopes|
        invariant out == Capped(a + Flat(mid[..j]), maxRecords)
      {
        var s := rm.scopes[j];
        ghost var inner, b := ScopeMetricLists(pl, w, resource, s), a + Flat(mid[..j]);
        FirstList(b, inner);
        for l := 0 to |s.metrics|
          invariant out == Capped(b + Flat(inner[..l]), maxRecords)
        {
          var full;
          ghost var done;
          out, full, done := WalkMetric(OriginOf(pl, w, resource, s.name, s.metrics[l]), s.metrics[l], out, maxRecords,
                                        b + Flat(inner[..l]));
          if full {
            BreakDeeper(outer, i, mid, j, inner, l, done, maxRecords);
            break records;
          }
          NextList(b, inner, l);
        }
        assert inner[..|s.metrics|] == inner;
        NextList(a, mid, j);
      }
      assert mid[..|rm.scopes|] == mid;
      FlatStep(outer, i);
    }
    assert outer[..|req|] == outer;
  }
}

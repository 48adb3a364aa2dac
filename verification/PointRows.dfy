/** The rows of a metric export, column by column from its points. */
module PointRows {
  import opened Common
  import opened Otlp
  import opened Flatten
  import opened Logs
  import opened Metrics
  import opened SkewWindow
  import opened LogRows

  datatype Point = OfNumber(kind: string, number: NumberPoint) | OfHistogram(histogram: HistogramPoint) {
    function Nanos(): Option<int> {
      SetNanos(if OfNumber? then number.time else histogram.time)
    }

    function Attrs(): Attributes {
      MapOfJ(if OfNumber? then number.attributes else histogram.attributes)
    }
  }

  /** A point where it stands: under its resource, its scope and its metric. */
  datatype PointInput = PointInput(resource: Attributes, scope: Option<string>, metric: Metric, point: Point)

  function PointTime(w: Window): PointInput -> int {
    (x: PointInput) => if x.point.Nanos().Some? then x.point.Nanos().value else w.receivedAt
  }

  /** An integer that parses, its 64 bits read with a sign. */
  ghost predicate SignedIs(n: Option<StringOrNum>, found: Option<i64>) {
    if n.None? || n.value.AsU64().None? then found.None?
    else found.Some? && (found.value == n.value.AsU64().value
                         || (found.value < 0 && found.value + 0x1_0000_0000_0000_0000 == n.value.AsU64().value))
  }

  /** The numbers that parse, in order. */
  ghost predicate Parsed(ns: seq<StringOrNum>, counts: seq<int>)
    decreases |ns|
  {
    if ns == [] then counts == []
    else if ns[0].AsU64().None? then Parsed(ns[1..], counts)
    else counts != [] && ns[0].AsU64() == Some(counts[0]) && Parsed(ns[1..], counts[1..])
  }

  ghost predicate NumberColumns(p: NumberPoint, v: StoredMetricPoint) {
    && v.valueDouble == p.asDouble && SignedIs(p.asInt, v.valueInt)
    && v.count.None? && v.sum.None? && v.buckets.None?
  }

  /** An object of all bounds, those that are not finite as null, and of the counts that parse. */
  ghost predicate BucketsShown(p: HistogramPoint, v: Json) {
    && v.JObject? && v.members.Keys == {"bounds", "counts"}
    && var (bounds, counts) := (v.members["bounds"], v.members["counts"]);
       && bounds.JArray? && |bounds.items| == |p.explicitBounds|
       && (forall i :: 0 <= i < |bounds.items| ==>
             bounds.items[i] == var d := p.explicitBounds[i]; if d.Finite? then JFloat(d.value) else JNull)
       && counts.JArray? && (forall i :: 0 <= i < |counts.items| ==> counts.items[i].JInt? && 0 <= counts.items[i].n)
       && Parsed(p.bucketCounts, seq(|counts.items|, i requires 0 <= i < |counts.items| =>
                                   if counts.items[i].JInt? then counts.items[i].n else 0))
  }

  ghost predicate HistogramColumns(p: HistogramPoint, v: StoredMetricPoint) {
    && v.valueDouble.None? && v.valueInt.None? && SignedIs(p.count, v.count) && v.sum == p.sum
    && v.buckets.Some? && BucketsShown(p, v.buckets.value)
  }

  ghost predicate PointIdentified(v: StoredMetricPoint) {
    && CorrelatedBy(v.attributes, v.resourceAttributes, ["tenant_id", "tenant.id", "tenant"], v.tenantId)
    && CorrelatedBy(v.attributes, v.resourceAttributes,
                    ["actor_id", "actor.id", "user.id", "enduser.id", "user_id"], v.actorId)
    && CorrelatedBy(v.attributes, v.resourceAttributes, ["session_id", "session.id", "session"], v.sessionId)
  }

  /** The fields that the id of a row is hashed from, taken from its columns. */
  function FieldsOf(v: StoredMetricPoint): MetricFields {
    MetricFields(v.receivedAt, v.time, v.metricName, v.metricType, v.unit, v.valueDouble, v.valueInt, v.count, v.sum,
                 v.buckets, v.serviceName, v.scopeName, v.attributes, v.resourceAttributes)
  }

  /** What all points of a metric have in common. */
  ghost predicate CommonColumns(pl: PointLibrary, w: Window, x: PointInput, v: StoredMetricPoint) {
    var m := x.metric;
    && v.time == (if x.point.Nanos().Some? then x.point.Nanos().value else w.receivedAt) && v.receivedAt == w.receivedAt
    && m.name == Some(v.metricName) && v.metricName != "" && v.unit == (if m.unit == Some("") then None else m.unit)
    && FirstText(x.resource, ["service.name"], v.serviceName) && v.scopeName == x.scope
    && v.resourceAttributes == x.resource && v.attributes == x.point.Attrs()
    && PointIdentified(v) && v.pointId == pl.lib.hash(PointPreimage(pl, FieldsOf(v)))
  }

  ghost predicate PointRow(pl: PointLibrary, w: Window, x: PointInput, v: StoredMetricPoint) {
    && CommonColumns(pl, w, x, v)
    && match x.point
       case OfNumber(kind, p) => v.metricType == kind && NumberColumns(p, v)
       case OfHistogram(p) => v.metricType == "histogram" && HistogramColumns(p, v)
  }

  ghost function PointFits(pl: PointLibrary, w: Window): (PointInput, StoredMetricPoint) -> bool {
    (x: PointInput, v: StoredMetricPoint) => PointRow(pl, w, x, v)
  }

  lemma AssembledPoint(pl: PointLibrary, f: MetricFields)
    ensures var v := AssemblePoint(pl, f);
            PointIdentified(v) && v.pointId == pl.lib.hash(PointPreimage(pl, FieldsOf(v)))
  {
    CorrelatedExactly(f.attrs, f.resourceAttrs, TENANT_KEYS);
    CorrelatedExactly(f.attrs, f.resourceAttrs, ACTOR_KEYS);
    CorrelatedExactly(f.attrs, f.resourceAttrs, SESSION_KEYS);
    assert FieldsOf(AssemblePoint(pl, f)) == f;
    hide Correlated, CorrelatedBy, PointPreimage;
  }

  lemma {:induction false} CountsParse(ns: seq<StringOrNum>)
    ensures Parsed(ns, Counts(ns))
    decreases |ns|
  {
    if ns != [] {
      CountsParse(ns[1..]);
      var first := if ns[0].AsU64().Some? then [ns[0].AsU64().value] else [];
      assert Counts(ns) == first + Counts(ns[1..]);
      if ns[0].AsU64().Some? {
        assert Counts(ns)[1..] == Counts(ns[1..]);
      } else {
        assert Counts(ns) == Counts(ns[1..]);
      }
    }
  }

  /** The slot that the walk makes of an input. */
  function PointSlot(pl: PointLibrary, w: Window, x: PointInput): Slot<StoredMetricPoint> {
    var o := OriginOf(pl, w, x.resource, x.scope, x.metric);
    match x.point
    case OfNumber(kind, p) => NumberSlot(o, kind, p)
    case OfHistogram(p) => HistogramSlot(o, p)
  }

  lemma SignedExactly(n: Option<StringOrNum>)
    ensures SignedIs(n, AsI64(n))
  {
  }

  function FieldsFor(pl: PointLibrary, w: Window, x: PointInput): MetricFields {
    var o := OriginOf(pl, w, x.resource, x.scope, x.metric);
    match x.point
    case OfNumber(kind, p) => NumberFields(o, kind, p)
    case OfHistogram(p) => HistogramFields(o, p)
  }

  lemma CommonFits(pl: PointLibrary, w: Window, x: PointInput)
    requires OrEmpty(x.metric.name) != ""
    ensures CommonColumns(pl, w, x, AssemblePoint(pl, FieldsFor(pl, w, x)))
  {
    ServiceIsFirst(x.resource);
    AssembledPoint(pl, FieldsFor(pl, w, x));
    hide PointIdentified, FirstText, Lookup, Correlated, MapOfJ, PointPreimage, ParseU64, Trim, AsI64, Counts,
         BucketsJson;
  }

  lemma BucketsAreShown(p: HistogramPoint)
    ensures BucketsShown(p, BucketsJson(p.explicitBounds, Counts(p.bucketCounts)))
  {
    var counts := Counts(p.bucketCounts);
    CountsParse(p.bucketCounts);
    var v := BucketsJson(p.explicitBounds, counts);
    hide Counts, Parsed;
    var items := v.members["counts"].items;
    assert |items| == |counts|;
    assert seq(|items|, i requires 0 <= i < |items| => if items[i].JInt? then items[i].n else 0) == counts;
  }

  lemma TypedFits(pl: PointLibrary, w: Window, x: PointInput)
    ensures var v := AssemblePoint(pl, FieldsFor(pl, w, x));
            match x.point
            case OfNumber(kind, p) => v.metricType == kind && NumberColumns(p, v)
            case OfHistogram(p) => v.metricType == "histogram" && HistogramColumns(p, v)
  {
    match x.point
    case OfNumber(kind, p) =>
      SignedExactly(p.asInt);
      hide Correlated, Lookup, MapOfJ, PointPreimage, ParseU64, Trim, AsI64, SignedIs;
    case OfHistogram(p) =>
      SignedExactly(p.count);
      BucketsAreShown(p);
      hide BucketsShown, Correlated, Lookup, MapOfJ, PointPreimage, ParseU64, Trim, AsI64, SignedIs,
           Counts, Parsed, BucketsJson;
  }

  lemma OutsideIsSkewed(w: Window, x: PointInput)
    ensures var time := if x.point.OfNumber? then x.point.number.time else x.point.histogram.time;
            Outside(w, PointTime(w)(x)) <==> !w.Holds(TimeOf(time, w.receivedAt))
  {
    hide ParseU64, Trim;
  }

  lemma PointSlotFits(pl: PointLibrary, w: Window, x: PointInput)
    requires OrEmpty(x.metric.name) != ""
    ensures SlotFits(w, x, PointTime(w), PointFits(pl, w), PointSlot(pl, w, x))
  {
    CommonFits(pl, w, x);
    TypedFits(pl, w, x);
    assert PointRow(pl, w, x, AssemblePoint(pl, FieldsFor(pl, w, x))) by {
      hide CommonColumns, NumberColumns, HistogramColumns, AssemblePoint, FieldsFor;
    }
    OutsideIsSkewed(w, x);
    hide PointRow, AssemblePoint, NumberFields, HistogramFields, TimeOf, PointTime, Outside;
  }

  // ---------------------------------------------------------------- the points of a request

  function NumberInputs(resource: Attributes, scope: Option<string>, m: Metric, kind: string, ps: seq<NumberPoint>)
    : seq<PointInput>
  {
    seq(|ps|, k requires 0 <= k < |ps| => PointInput(resource, scope, m, OfNumber(kind, ps[k])))
  }

  function HistogramInputs(resource: Attributes, scope: Option<string>, m: Metric, ps: seq<HistogramPoint>)
    : seq<PointInput>
  {
    seq(|ps|, k requires 0 <= k < |ps| => PointInput(resource, scope, m, OfHistogram(ps[k])))
  }

  /** The points of a metric that has a name: its gauge, its sum, its histogram. */
  function MetricInputs(resource: Attributes, scope: Option<string>, m: Metric): seq<seq<PointInput>> {
    if m.name.None? || m.name == Some("") then []
    else
      (if m.gauge.Some? then [NumberInputs(resource, scope, m, "gauge", m.gauge.value)] else [])
      + (if m.sum.Some? then [NumberInputs(resource, scope, m, "sum", m.sum.value)] else [])
      + (if m.histogram.Some? then [HistogramInputs(resource, scope, m, m.histogram.value)] else [])
  }

  function ScopeInputs(resource: Attributes, s: ScopeMetrics): seq<PointInput> {
    Flat(seq(|s.metrics|, l requires 0 <= l < |s.metrics| => Flat(MetricInputs(resource, s.name, s.metrics[l]))))
  }

  function ScopesInputs(resource: Attributes, ss: seq<ScopeMetrics>): seq<seq<PointInput>> {
    seq(|ss|, j requires 0 <= j < |ss| => ScopeInputs(resource, ss[j]))
  }

  function ResourceInputs(rm: ResourceMetrics): seq<PointInput> {
    Flat(ScopesInputs(ResourceAttrs(rm), rm.scopes))
  }

  function PointInputs(req: seq<ResourceMetrics>): seq<PointInput> {
    Flat(seq(|req|, i requires 0 <= i < |req| => ResourceInputs(req[i])))
  }

  ghost function PointSlots(pl: PointLibrary, w: Window): (PointInput, Slot<StoredMetricPoint>) -> bool {
    (x: PointInput, slot: Slot<StoredMetricPoint>) => OrEmpty(x.metric.name) != "" && slot == PointSlot(pl, w, x)
  }

  lemma NumbersWalk(pl: PointLibrary, w: Window, resource: Attributes, scope: Option<string>, m: Metric, kind: string,
                    ps: seq<NumberPoint>)
    requires OrEmpty(m.name) != ""
    ensures Pairwise(NumberInputs(resource, scope, m, kind, ps),
                     NumberSlots(OriginOf(pl, w, resource, scope, m), kind, ps), PointSlots(pl, w))
  {
    hide NumberSlot, OriginOf;
    var xs := NumberInputs(resource, scope, m, kind, ps);
    var ys := NumberSlots(OriginOf(pl, w, resource, scope, m), kind, ps);
    forall k | 0 <= k < |ps| ensures PointSlots(pl, w)(xs[k], ys[k]) {
      assert xs[k] == PointInput(resource, scope, m, OfNumber(kind, ps[k]));
      assert PointSlot(pl, w, xs[k]) == ys[k];
    }
  }

  lemma HistogramsWalk(pl: PointLibrary, w: Window, resource: Attributes, scope: Option<string>, m: Metric,
                       ps: seq<HistogramPoint>)
    requires OrEmpty(m.name) != ""
    ensures Pairwise(HistogramInputs(resource, scope, m, ps),
                     HistogramSlots(OriginOf(pl, w, resource, scope, m), ps), PointSlots(pl, w))
  {
    hide HistogramSlot, OriginOf;
    var xs := HistogramInputs(resource, scope, m, ps);
    var ys := HistogramSlots(OriginOf(pl, w, resource, scope, m), ps);
    forall k | 0 <= k < |ps| ensures PointSlots(pl, w)(xs[k], ys[k]) {
      assert xs[k] == PointInput(resource, scope, m, OfHistogram(ps[k]));
      assert PointSlot(pl, w, xs[k]) == ys[k];
    }
  }

  lemma MetricWalk(pl: PointLibrary, w: Window, resource: Attributes, scope: Option<string>, m: Metric)
    ensures Pairwise(Flat(MetricInputs(resource, scope, m)),
                     Flat(MetricLists(OriginOf(pl, w, resource, scope, m), m)), PointSlots(pl, w))
  {
    var o, related := OriginOf(pl, w, resource, scope, m), PointSlots(pl, w);
    var (xs, ys) := (MetricInputs(resource, scope, m), MetricLists(o, m));
    hide NumberSlot, HistogramSlot, Flat;
    if OrEmpty(m.name) != "" {
      if m.gauge.Some? {
        NumbersWalk(pl, w, resource, scope, m, "gauge", m.gauge.value);
      }
      if m.sum.Some? {
        NumbersWalk(pl, w, resource, scope, m, "sum", m.sum.value);
      }
      if m.histogram.Some? {
        HistogramsWalk(pl, w, resource, scope, m, m.histogram.value);
      }
      hide NumberInputs, HistogramInputs, NumberSlots, HistogramSlots, PointSlots, Pairwise;
      forall i | 0 <= i < |xs| ensures Pairwise(xs[i], ys[i], related) {
      }
    }
    FlatRelates(xs, ys, related);
  }

  lemma ScopeWalk(pl: PointLibrary, w: Window, resource: Attributes, s: ScopeMetrics)
    ensures Pairwise(ScopeInputs(resource, s), Flat(ScopeMetricLists(pl, w, resource, s)), PointSlots(pl, w))
  {
    hide MetricInputs, MetricLists, OriginOf, Flat, PointSlots;
    var xs := seq(|s.metrics|, l requires 0 <= l < |s.metrics| => Flat(MetricInputs(resource, s.name, s.metrics[l])));
    var ys := ScopeMetricLists(pl, w, resource, s);
    forall l | 0 <= l < |xs| ensures Pairwise(xs[l], ys[l], PointSlots(pl, w)) {
      MetricWalk(pl, w, resource, s.name, s.metrics[l]);
    }
    FlatRelates(xs, ys, PointSlots(pl, w));
  }

  lemma RequestWalk(pl: PointLibrary, w: Window, req: seq<ResourceMetrics>)
    ensures Pairwise(PointInputs(req), MetricSlots(pl, w, req), PointSlots(pl, w))
  {
    hide ScopeInputs, ScopeMetricLists, Flat, PointSlots;
    var xs := seq(|req|, i requires 0 <= i < |req| => ResourceInputs(req[i]));
    var ys := RequestMetricLists(pl, w, req);
    forall i | 0 <= i < |req| ensures Pairwise(xs[i], ys[i], PointSlots(pl, w)) {
      var (attrs, scopes) := (ResourceAttrs(req[i]), req[i].scopes);
      var zs := ScopesInputs(attrs, scopes);
      forall j | 0 <= j < |scopes|
        ensures Pairwise(zs[j], ResourceMetricLists(pl, w, attrs, scopes)[j], PointSlots(pl, w))
      {
        ScopeWalk(pl, w, attrs, scopes[j]);
      }
      FlatRelates(zs, ResourceMetricLists(pl, w, attrs, scopes), PointSlots(pl, w));
    }
    FlatRelates(xs, ys, PointSlots(pl, w));
  }

  /**
   * A metric export: no row is outside the window; short of the cap every point of a named metric inside it has its
   * row, in order, and every one outside is counted.
   */
  lemma PointsKeepInside(pl: PointLibrary, w: Window, req: seq<ResourceMetrics>, maxRecords: nat)
    ensures KeepsInside(w, PointInputs(req), PointTime(w), PointFits(pl, w), maxRecords,
                        Capped(MetricSlots(pl, w, req), maxRecords))
  {
    var inputs, slots := PointInputs(req), MetricSlots(pl, w, req);
    RequestWalk(pl, w, req);
    hide PointFits, MetricSlots, PointInputs, PointSlot, PointTime;
    forall i | 0 <= i < |slots| ensures SlotFits(w, inputs[i], PointTime(w), PointFits(pl, w), slots[i]) {
      assert PointSlots(pl, w)(inputs[i], slots[i]);
      PointSlotFits(pl, w, inputs[i]);
    }
    WalkKeeps(w, inputs, PointTime(w), PointFits(pl, w), slots, maxRecords);
  }
}

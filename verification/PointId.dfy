/** When two metric points have the same bytes hashed into their ids. */
module PointId {
  import opened Common
  import opened Otlp
  import opened DedupId
  import opened Logs
  import opened Metrics

  /** The library turns each f64 it is given here into eight bytes of its own, and each value into a text of its own. */
  ghost predicate Separated(l: PointLibrary, a: MetricFields, b: MetricFields) {
    && SeparateBits(l, OrZeroDouble(a.valueDouble), OrZeroDouble(b.valueDouble))
    && SeparateBits(l, OrZeroDouble(a.sum), OrZeroDouble(b.sum))
    && (l.lib.text(JObject(a.attrs)) == l.lib.text(JObject(b.attrs)) ==> a.attrs == b.attrs)
  }

  ghost predicate SeparateBits(l: PointLibrary, d: Double, e: Double) {
    |l.bits(d)| == 8 && |l.bits(e)| == 8 && (l.bits(d) == l.bits(e) ==> d == e)
  }

  /** Texts that differ hold no NUL, and no instant lies outside an i64. */
  ghost predicate Readable(l: PointLibrary, a: MetricFields, b: MetricFields) {
    && MarkFree(a.metricName, b.metricName) && MarkFree(a.metricType, b.metricType)
    && MarkFree(OrEmpty(a.serviceName), OrEmpty(b.serviceName))
    && MarkFree(BucketsText(l.lib, a.buckets), BucketsText(l.lib, b.buckets))
    && I64_MIN <= a.time <= I64_MAX && I64_MIN <= b.time <= I64_MAX
  }

  predicate MarkFree(s: string, t: string) {
    s != t ==> '\0' !in s && '\0' !in t
  }

  function NumberOr0(d: Option<Double>): Double {
    match d
    case Some(x) => x
    case None => Finite(0.0)
  }

  function IntOr0(n: Option<i64>): int {
    match n
    case Some(x) => x
    case None => 0
  }

  function TextOrNone(lib: Library, j: Option<Json>): string {
    match j
    case Some(v) => lib.text(v)
    case None => ""
  }

  /** The fields that the bytes tell; an absent number or text counts as 0 or empty. */
  ghost predicate SamePoint(l: PointLibrary, a: MetricFields, b: MetricFields) {
    && a.time == b.time && a.metricName == b.metricName && a.metricType == b.metricType
    && OrEmpty(a.serviceName) == OrEmpty(b.serviceName)
    && NumberOr0(a.valueDouble) == NumberOr0(b.valueDouble) && IntOr0(a.valueInt) == IntOr0(b.valueInt)
    && IntOr0(a.count) == IntOr0(b.count) && NumberOr0(a.sum) == NumberOr0(b.sum)
    && TextOrNone(l.lib, a.buckets) == TextOrNone(l.lib, b.buckets) && a.attrs == b.attrs
  }

  lemma Defaults(lib: Library, f: MetricFields)
    ensures NumberOr0(f.valueDouble) == OrZeroDouble(f.valueDouble) && NumberOr0(f.sum) == OrZeroDouble(f.sum)
    ensures IntOr0(f.valueInt) == OrZeroInt(f.valueInt) && IntOr0(f.count) == OrZeroInt(f.count)
    ensures TextOrNone(lib, f.buckets) == BucketsText(lib, f.buckets)
  {
  }

  lemma TextAt(s: string, x: seq<byte>, t: string, y: seq<byte>)
    requires Utf8(s) + [0] + x == Utf8(t) + [0] + y && MarkFree(s, t)
    ensures s == t && x == y
  {
    if s != t {
      Utf8NulFree(s);
      Utf8NulFree(t);
    }
    SplitAt(0, Utf8(s), x, Utf8(t), y);
    Utf8Injective(s, t);
  }

  lemma NumbersAt(l: PointLibrary, a: MetricFields, x: seq<byte>, b: MetricFields, y: seq<byte>)
    requires Separated(l, a, b) && PointNumbers(l, a) + x == PointNumbers(l, b) + y
    ensures OrZeroDouble(a.valueDouble) == OrZeroDouble(b.valueDouble) && OrZeroInt(a.valueInt) == OrZeroInt(b.valueInt)
    ensures OrZeroInt(a.count) == OrZeroInt(b.count) && OrZeroDouble(a.sum) == OrZeroDouble(b.sum) && x == y
  {
    var va, vb := l.bits(OrZeroDouble(a.valueDouble)), l.bits(OrZeroDouble(b.valueDouble));
    var ia, ib := I64Bytes(OrZeroInt(a.valueInt)), I64Bytes(OrZeroInt(b.valueInt));
    var ca, cb := I64Bytes(OrZeroInt(a.count)), I64Bytes(OrZeroInt(b.count));
    var sa, sb := l.bits(OrZeroDouble(a.sum)), l.bits(OrZeroDouble(b.sum));
    SameSplit(va + ia + (ca + sa), x, vb + ib + (cb + sb), y);
    SameSplit(va + ia, ca + sa, vb + ib, cb + sb);
    SameSplit(va, ia, vb, ib);
    SameSplit(ca, sa, cb, sb);
    I64BytesInjective(OrZeroInt(a.valueInt), OrZeroInt(b.valueInt));
    I64BytesInjective(OrZeroInt(a.count), OrZeroInt(b.count));
  }

  lemma FieldsAt(l: PointLibrary, a: MetricFields, b: MetricFields)
    requires Separated(l, a, b) && Readable(l, a, b) && PointPreimage(l, a) == PointPreimage(l, b)
    ensures SamePoint(l, a, b)
  {
    Defaults(l.lib, a);
    Defaults(l.lib, b);
    hide Utf8, I64Bytes, PointNumbers, BucketsText, OrZeroDouble, OrZeroInt, NumberOr0, IntOr0, TextOrNone;
    var (za, zb) := (Utf8(l.lib.text(JObject(a.attrs))), Utf8(l.lib.text(JObject(b.attrs))));
    var (ya, yb) := (Utf8(BucketsText(l.lib, a.buckets)) + [0] + za, Utf8(BucketsText(l.lib, b.buckets)) + [0] + zb);
    var (na, nb) := (PointNumbers(l, a) + ya, PointNumbers(l, b) + yb);
    var (sa, sb) := (Utf8(OrEmpty(a.serviceName)) + [0] + na, Utf8(OrEmpty(b.serviceName)) + [0] + nb);
    var (ta, tb) := (Utf8(a.metricType) + [0] + sa, Utf8(b.metricType) + [0] + sb);
    SameSplit(I64Bytes(a.time), Utf8(a.metricName) + [0] + ta, I64Bytes(b.time), Utf8(b.metricName) + [0] + tb);
    I64BytesInjective(a.time, b.time);
    TextAt(a.metricName, ta, b.metricName, tb);
    TextAt(a.metricType, sa, b.metricType, sb);
    TextAt(OrEmpty(a.serviceName), na, OrEmpty(b.serviceName), nb);
    NumbersAt(l, a, ya, b, yb);
    TextAt(BucketsText(l.lib, a.buckets), za, BucketsText(l.lib, b.buckets), zb);
    Utf8Injective(l.lib.text(JObject(a.attrs)), l.lib.text(JObject(b.attrs)));
  }

  /** Two points have the same bytes exactly when they agree in all that goes in; unit and scope do not. */
  lemma PointsAgreeExactly(l: PointLibrary, a: MetricFields, b: MetricFields)
    requires Separated(l, a, b) && Readable(l, a, b)
    ensures PointPreimage(l, a) == PointPreimage(l, b) <==> SamePoint(l, a, b)
  {
    if PointPreimage(l, a) == PointPreimage(l, b) {
      FieldsAt(l, a, b);
    }
    Defaults(l.lib, a);
    Defaults(l.lib, b);
    hide NumberOr0, IntOr0, TextOrNone, BucketsText, OrZeroDouble, OrZeroInt;
  }

  /** An instant that does not fit an i64 counts as 0. */
  lemma LateTimesCollide(l: PointLibrary, f: MetricFields)
    requires f.time < I64_MIN || f.time > I64_MAX
    ensures PointPreimage(l, f) == PointPreimage(l, f.(time := 0))
  {
    hide Utf8, I64Bytes;
  }

  /** Points that differ only in their unit share their id: the unit is not part of what identifies a point. */
  lemma UnitsCollide(l: PointLibrary, f: MetricFields, unit: Option<string>)
    requires unit != f.unit
    ensures var g := f.(unit := unit);
            AssemblePoint(l, g) != AssemblePoint(l, f) && AssemblePoint(l, g).pointId == AssemblePoint(l, f).pointId
  {
    hide Correlated;
    assert PointPreimage(l, f.(unit := unit)) == PointPreimage(l, f);
    hide PointPreimage;
  }
}

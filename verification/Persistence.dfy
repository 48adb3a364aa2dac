/**
 * From what is stored in memory to what COPY puts into staging: the columns of a flattened log or metric point,
 * printed, and the rows that the database reads from the printed text of a batch of events.
 */
module Persistence {
  import opened Common
  import opened Csv
  import opened CsvRows
  import opened Otlp
  import L = Logs
  import M = Metrics
  import S = Store

  /** Library printers of UUIDs, instants, floats and JSON objects. */
  datatype Printer = Printer(
    uuid: nat -> PlainText, time: int -> PlainText, float: Double -> PlainText, json: Json -> string)

  ghost predicate Injective<A(!new), B>(f: A -> B) {
    forall x: A, y: A :: f(x) == f(y) ==> x == y
  }

  /** UUIDs and instants print differently when they differ. */
  ghost predicate Faithful(pr: Printer) {
    Injective(pr.uuid) && Injective(pr.time)
  }

  /** These two values print differently if they differ; asked only of those at hand, since reals outnumber texts. */
  ghost predicate Apart<A, B>(f: A -> B, x: A, y: A) {
    f(x) == f(y) ==> x == y
  }

  ghost predicate ApartIfAny<A, B>(f: A -> B, x: Option<A>, y: Option<A>) {
    x.Some? && y.Some? ==> Apart(f, x.value, y.value)
  }

  function Printed<A>(f: A -> PlainText, x: Option<A>): Option<PlainText> {
    if x.Some? then Some(f(x.value)) else None
  }

  lemma PrintedApart<A>(f: A -> PlainText, x: Option<A>, y: Option<A>)
    requires ApartIfAny(f, x, y) && Printed(f, x) == Printed(f, y)
    ensures x == y
  {
  }

  // ---------------------------------------------------------------- logs and metric points

  function ColumnsOfLog(pr: Printer, l: L.StoredLog): LogColumns {
    LogColumns(
      pr.uuid(l.logId), pr.time(l.logTime), Printed(pr.time, l.observedTime), pr.time(l.receivedAt),
      if l.severityNumber.Some? then Some(l.severityNumber.value as int) else None,
      l.severityText, l.body, l.serviceName, l.scopeName, l.traceId, l.spanId, l.tenantId, l.actorId, l.sessionId,
      pr.json(JObject(l.resourceAttributes)), pr.json(JObject(l.logAttributes)))
  }

  function ColumnsOfPoint(pr: Printer, p: M.StoredMetricPoint): MetricPointColumns {
    MetricPointColumns(
      pr.uuid(p.pointId), pr.time(p.time), p.metricName, p.metricType, p.unit, Printed(pr.float, p.valueDouble),
      if p.valueInt.Some? then Some(p.valueInt.value as int) else None,
      if p.count.Some? then Some(p.count.value as int) else None,
      Printed(pr.float, p.sum), if p.buckets.Some? then Some(pr.json(p.buckets.value)) else None,
      p.serviceName, p.scopeName, p.tenantId, p.actorId, p.sessionId, pr.time(p.receivedAt),
      pr.json(JObject(p.resourceAttributes)), pr.json(JObject(p.attributes)))
  }

  ghost predicate ApartLogs(pr: Printer, a: L.StoredLog, b: L.StoredLog) {
    && Apart(pr.json, JObject(a.resourceAttributes), JObject(b.resourceAttributes))
    && Apart(pr.json, JObject(a.logAttributes), JObject(b.logAttributes))
  }

  ghost predicate ApartPoints(pr: Printer, a: M.StoredMetricPoint, b: M.StoredMetricPoint) {
    && Apart(pr.json, JObject(a.resourceAttributes), JObject(b.resourceAttributes))
    && Apart(pr.json, JObject(a.attributes), JObject(b.attributes)) && ApartIfAny(pr.json, a.buckets, b.buckets)
    && ApartIfAny(pr.float, a.valueDouble, b.valueDouble) && ApartIfAny(pr.float, a.sum, b.sum)
  }

  lemma LogColumnsInjective(pr: Printer, a: L.StoredLog, b: L.StoredLog)
    requires Faithful(pr) && ApartLogs(pr, a, b) && ColumnsOfLog(pr, a) == ColumnsOfLog(pr, b)
    ensures a == b
  {
    PrintedApart(pr.time, a.observedTime, b.observedTime);
    assert JObject(a.resourceAttributes) == JObject(b.resourceAttributes);
    assert JObject(a.logAttributes) == JObject(b.logAttributes);
  }

  lemma PointColumnsInjective(pr: Printer, a: M.StoredMetricPoint, b: M.StoredMetricPoint)
    requires Faithful(pr) && ApartPoints(pr, a, b) && ColumnsOfPoint(pr, a) == ColumnsOfPoint(pr, b)
    ensures a == b
  {
    PrintedApart(pr.float, a.valueDouble, b.valueDouble);
    PrintedApart(pr.float, a.sum, b.sum);
    assert JObject(a.resourceAttributes) == JObject(b.resourceAttributes);
    assert JObject(a.attributes) == JObject(b.attributes);
  }

  function LogRecords(pr: Printer, logs: seq<L.StoredLog>): seq<Record> {
    seq(|logs|, i requires 0 <= i < |logs| => OfLogs(ColumnsOfLog(pr, logs[i])))
  }

  function PointRecords(pr: Printer, points: seq<M.StoredMetricPoint>): seq<Record> {
    seq(|points|, i requires 0 <= i < |points| => OfMetrics(ColumnsOfPoint(pr, points[i])))
  }

  /** The text that a flush of flattened logs sends determines the logs, their ids and receipt times included. */
  lemma LogTextInjective(pr: Printer, a: seq<L.StoredLog>, b: seq<L.StoredLog>)
    requires Faithful(pr) && forall i :: 0 <= i < |a| && i < |b| ==> ApartLogs(pr, a[i], b[i])
    requires RowsText(Rows(LogRecords(pr, a))) == RowsText(Rows(LogRecords(pr, b)))
    ensures a == b
  {
    var x, y := LogRecords(pr, a), LogRecords(pr, b);
    hide RowsText, Rows, Faithful, ApartLogs, ApartPoints;
    BatchTextInjective(x, y);
    assert |x| == |a| && |y| == |b|;
    forall i | 0 <= i < |a| ensures a[i] == b[i] {
      assert x[i].l == y[i].l;
      LogColumnsInjective(pr, a[i], b[i]);
    }
  }

  /** So does that of a flush of metric points. */
  lemma PointTextInjective(pr: Printer, a: seq<M.StoredMetricPoint>, b: seq<M.StoredMetricPoint>)
    requires Faithful(pr) && forall i :: 0 <= i < |a| && i < |b| ==> ApartPoints(pr, a[i], b[i])
    requires RowsText(Rows(PointRecords(pr, a))) == RowsText(Rows(PointRecords(pr, b)))
    ensures a == b
  {
    var x, y := PointRecords(pr, a), PointRecords(pr, b);
    hide RowsText, Rows, Faithful, ApartLogs, ApartPoints;
    BatchTextInjective(x, y);
    assert |x| == |a| && |y| == |b|;
    forall i | 0 <= i < |a| ensures a[i] == b[i] {
      assert x[i].p == y[i].p;
      PointColumnsInjective(pr, a[i], b[i]);
    }
  }

  // ---------------------------------------------------------------- events, up to the staging table

  /** An event as it is buffered; its id is a UUID already printed. */
  datatype BufferedEvent = BufferedEvent(
    id: PlainText, name: string, tenant: Option<string>, actor: string, session: string, timestamp: int,
    receivedAt: int, properties: string)

  function ColumnsOfEvent(pr: Printer, e: BufferedEvent): EventColumns {
    EventColumns(e.id, e.name, e.tenant, e.actor, e.session, pr.time(e.timestamp), pr.time(e.receivedAt), e.properties)
  }

  function EventRecords(pr: Printer, events: seq<BufferedEvent>): seq<Record> {
    seq(|events|, i requires 0 <= i < |events| => OfEvents(ColumnsOfEvent(pr, events[i])))
  }

  function CellOf(f: Field): Cell {
    if f.Text? then Quoted(f.text) else Empty
  }

  /** The columns without a meaning of their own, in one text. */
  function Payload(name: Field, tenant: Field, actor: Field, session: Field, properties: Field): string {
    RowText([CellOf(name), CellOf(tenant), CellOf(actor), CellOf(session), CellOf(properties)])
  }

  /** The staging row of a buffered event. */
  function Staged(e: BufferedEvent): S.Row {
    S.Row(S.Event(S.Key(e.timestamp, e.id),
                  Payload(Text(e.name), Value(OptText(e.tenant)), Text(e.actor), Text(e.session), Text(e.properties))),
          e.receivedAt)
  }

  /** How the database reads one row; an instant that does not parse fails the COPY. */
  function ReadRow(when: string -> Option<int>, fields: seq<Field>): Option<S.Row> {
    if |fields| != 8 || !fields[0].Text? || !fields[5].Text? || !fields[6].Text? then None
    else if when(fields[5].text).None? || when(fields[6].text).None? then None
    else Some(S.Row(S.Event(S.Key(when(fields[5].text).value, fields[0].text),
                            Payload(fields[1], fields[2], fields[3], fields[4], fields[7])),
                    when(fields[6].text).value))
  }

  function ReadRows(when: string -> Option<int>, rows: seq<seq<Field>>): Option<seq<S.Row>> {
    if rows == [] then Some([])
    else
      var (rest, last) := (ReadRows(when, rows[..|rows| - 1]), ReadRow(when, rows[|rows| - 1]));
      if rest.None? || last.None? then None else Some(rest.value + [last.value])
  }

  /** COPY as a whole: the text is read, or nothing is staged. */
  function CopyText(when: string -> Option<int>, db: S.Db, text: string): Option<S.Db> {
    var rows := ParseAll(text);
    if rows.None? || ReadRows(when, rows.value).None? then None
    else Some(S.CopyIn(db, ReadRows(when, rows.value).value))
  }

  ghost predicate ReadsBack(pr: Printer, when: string -> Option<int>) {
    forall t :: when(pr.time(t)) == Some(t)
  }

  function StagedRows(events: seq<BufferedEvent>): seq<S.Row> {
    seq(|events|, i requires 0 <= i < |events| => Staged(events[i]))
  }

  lemma RowIsRead(pr: Printer, when: string -> Option<int>, e: BufferedEvent)
    requires ReadsBack(pr, when)
    ensures ReadRow(when, Values(EventCells(ColumnsOfEvent(pr, e)))) == Some(Staged(e))
  {
    var fields := Values(EventCells(ColumnsOfEvent(pr, e)));
    assert fields[0] == Text(e.id) && fields[1] == Text(e.name) && fields[2] == Value(OptText(e.tenant));
    assert fields[3] == Text(e.actor) && fields[4] == Text(e.session) && fields[5] == Text(pr.time(e.timestamp));
    assert fields[6] == Text(pr.time(e.receivedAt)) && fields[7] == Text(e.properties);
    hide RowText, Values, EventCells, OptText, Payload;
    assert when(pr.time(e.timestamp)) == Some(e.timestamp) && when(pr.time(e.receivedAt)) == Some(e.receivedAt);
  }

  lemma {:induction false} RowsAreRead(when: string -> Option<int>, rows: seq<seq<Field>>, events: seq<BufferedEvent>)
    requires |rows| == |events| && forall i :: 0 <= i < |rows| ==> ReadRow(when, rows[i]) == Some(Staged(events[i]))
    ensures ReadRows(when, rows) == Some(StagedRows(events))
    decreases |rows|
  {
    hide ReadRow, Staged;
    if rows != [] {
      var n := |rows| - 1;
      RowsAreRead(when, rows[..n], events[..n]);
      assert StagedRows(events) == StagedRows(events[..n]) + [Staged(events[n])];
    }
  }

  /** COPY of the printed buffer stages exactly the rows of the buffer, behind those already there. */
  lemma CopyStagesBuffer(pr: Printer, when: string -> Option<int>, db: S.Db, events: seq<BufferedEvent>)
    requires ReadsBack(pr, when)
    ensures CopyText(when, db, RowsText(Rows(EventRecords(pr, events)))) == Some(S.CopyIn(db, StagedRows(events)))
  {
    var records := EventRecords(pr, events);
    BatchIsReadBack(records);
    var rows := AllValues(Rows(records));
    hide RowsText, Rows, ParseAll, AllValues, Values, EventCells, ReadRow, ColumnsOfEvent, Staged;
    forall i | 0 <= i < |rows| ensures ReadRow(when, rows[i]) == Some(Staged(events[i])) {
      assert records[i] == OfEvents(ColumnsOfEvent(pr, events[i]));
      RowIsRead(pr, when, events[i]);
    }
    RowsAreRead(when, rows, events);
  }

  lemma ValueInjective(x: Field, y: Field)
    requires Value(CellOf(x)) == Value(CellOf(y))
    ensures x == y
  {
  }

  lemma OneRow(x: Row)
    ensures ParseAll(RowText(x)) == Some([Values(x)])
  {
    var rows: seq<Row> := [x];
    RoundTrip(rows);
    assert RowsText(rows[1..]) == "" && RowText(x) + "" == RowText(x);
    assert RowsText(rows) == RowText(x);
    assert AllValues(rows) == [Values(x)];
  }

  /** The payload of a row keeps its columns apart. */
  lemma PayloadInjective(a: seq<Field>, b: seq<Field>)
    requires |a| == 5 && |b| == 5
    requires Payload(a[0], a[1], a[2], a[3], a[4]) == Payload(b[0], b[1], b[2], b[3], b[4])
    ensures a == b
  {
    var x: Row := [CellOf(a[0]), CellOf(a[1]), CellOf(a[2]), CellOf(a[3]), CellOf(a[4])];
    var y: Row := [CellOf(b[0]), CellOf(b[1]), CellOf(b[2]), CellOf(b[3]), CellOf(b[4])];
    OneRow(x);
    OneRow(y);
    forall i | 0 <= i < 5 ensures a[i] == b[i] {
      assert Values(x)[i] == Value(x[i]) && Values(y)[i] == Value(y[i]);
      ValueInjective(a[i], b[i]);
    }
  }
}

/**
 * COPY names its columns. What the database reads under each name from the text of a flush is that field of the
 * record, for every record of the batch, whatever the text holds.
 */
module CopyColumns {
  import opened Common
  import opened Csv
  import opened CsvRows
  import opened Decimal
  import opened Otlp
  import opened Persistence
  import L = Logs
  import M = Metrics

  /** The column lists of the three COPY statements. */
  const EVENT_COPY: seq<string> :=
    ["event_id", "event_name", "tenant_id", "actor_id", "session_id", "timestamp_client", "received_at", "properties"]

  const LOG_COPY: seq<string> :=
    ["log_id", "log_time", "observed_time", "received_at", "severity_number", "severity_text", "body", "service_name",
     "scope_name", "trace_id", "span_id", "tenant_id", "actor_id", "session_id", "resource_attributes",
     "log_attributes"]

  const POINT_COPY: seq<string> :=
    ["point_id", "time", "metric_name", "metric_type", "unit", "value_double", "value_int", "count", "sum", "buckets",
     "service_name", "scope_name", "tenant_id", "actor_id", "session_id", "received_at", "resource_attributes",
     "attributes"]

  /** The row has a field for every column, and under this name it holds the field f. */
  ghost predicate Reads(columns: seq<string>, row: seq<Field>, name: string, f: Field) {
    |row| == |columns| && exists i :: 0 <= i < |columns| && columns[i] == name && row[i] == f
  }

  function OrNull(s: Option<string>): Field {
    if s.Some? then Text(s.value) else Null
  }

  function NumOrNull(n: Option<int>): Field {
    if n.Some? then Text(PrintInt(n.value)) else Null
  }

  function PrintedOrNull<A>(f: A -> PlainText, x: Option<A>): Field {
    if x.Some? then Text(f(x.value)) else Null
  }

  ghost predicate EventReads(pr: Printer, row: seq<Field>, e: BufferedEvent) {
    && Reads(EVENT_COPY, row, "event_id", Text(e.id))
    && Reads(EVENT_COPY, row, "event_name", Text(e.name))
    && Reads(EVENT_COPY, row, "tenant_id", OrNull(e.tenant))
    && Reads(EVENT_COPY, row, "actor_id", Text(e.actor))
    && Reads(EVENT_COPY, row, "session_id", Text(e.session))
    && Reads(EVENT_COPY, row, "timestamp_client", Text(pr.time(e.timestamp)))
    && Reads(EVENT_COPY, row, "received_at", Text(pr.time(e.receivedAt)))
    && Reads(EVENT_COPY, row, "properties", Text(e.properties))
  }

  function JsonOrNull(pr: Printer, j: Option<Json>): Field {
    if j.Some? then Text(pr.json(j.value)) else Null
  }

  ghost predicate LogReadsPart1(pr: Printer, row: seq<Field>, l: L.StoredLog) {
    && Reads(LOG_COPY, row, "log_id", Text(pr.uuid(l.logId)))
    && Reads(LOG_COPY, row, "log_time", Text(pr.time(l.logTime)))
    && Reads(LOG_COPY, row, "observed_time", PrintedOrNull(pr.time, l.observedTime))
    && Reads(LOG_COPY, row, "received_at", Text(pr.time(l.receivedAt)))
  }

  ghost predicate LogReadsPart2(pr: Printer, row: seq<Field>, l: L.StoredLog) {
    && Reads(LOG_COPY, row, "severity_number", NumOrNull(l.severityNumber))
    && Reads(LOG_COPY, row, "severity_text", OrNull(l.severityText))
    && Reads(LOG_COPY, row, "body", OrNull(l.body))
    && Reads(LOG_COPY, row, "service_name", OrNull(l.serviceName))
    && Reads(LOG_COPY, row, "scope_name", OrNull(l.scopeName))
    && Reads(LOG_COPY, row, "trace_id", OrNull(l.traceId))
  }

  ghost predicate LogReadsPart3(pr: Printer, row: seq<Field>, l: L.StoredLog) {
    && Reads(LOG_COPY, row, "span_id", OrNull(l.spanId))
    && Reads(LOG_COPY, row, "tenant_id", OrNull(l.tenantId))
    && Reads(LOG_COPY, row, "actor_id", OrNull(l.actorId))
    && Reads(LOG_COPY, row, "session_id", OrNull(l.sessionId))
    && Reads(LOG_COPY, row, "resource_attributes", Text(pr.json(JObject(l.resourceAttributes))))
    && Reads(LOG_COPY, row, "log_attributes", Text(pr.json(JObject(l.logAttributes))))
  }

  ghost predicate LogReads(pr: Printer, row: seq<Field>, l: L.StoredLog) {
    LogReadsPart1(pr, row, l) && LogReadsPart2(pr, row, l) && LogReadsPart3(pr, row, l)
  }

  ghost predicate PointReadsPart1(pr: Printer, row: seq<Field>, p: M.StoredMetricPoint) {
    && Reads(POINT_COPY, row, "point_id", Text(pr.uuid(p.pointId)))
    && Reads(POINT_COPY, row, "time", Text(pr.time(p.time)))
    && Reads(POINT_COPY, row, "metric_name", Text(p.metricName))
    && Reads(POINT_COPY, row, "metric_type", Text(p.metricType))
  }

  ghost predicate PointReadsPart2(pr: Printer, row: seq<Field>, p: M.StoredMetricPoint) {
    && Reads(POINT_COPY, row, "unit", OrNull(p.unit))
    && Reads(POINT_COPY, row, "value_double", PrintedOrNull(pr.float, p.valueDouble))
    && Reads(POINT_COPY, row, "value_int", NumOrNull(p.valueInt))
    && Reads(POINT_COPY, row, "count", NumOrNull(p.count))
    && Reads(POINT_COPY, row, "sum", PrintedOrNull(pr.float, p.sum))
    && Reads(POINT_COPY, row, "buckets", JsonOrNull(pr, p.buckets))
  }

  ghost predicate PointReadsPart3(pr: Printer, row: seq<Field>, p: M.StoredMetricPoint) {
    && Reads(POINT_COPY, row, "service_name", OrNull(p.serviceName))
    && Reads(POINT_COPY, row, "scope_name", OrNull(p.scopeName))
    && Reads(POINT_COPY, row, "tenant_id", OrNull(p.tenantId))
    && Reads(POINT_COPY, row, "actor_id", OrNull(p.actorId))
    && Reads(POINT_COPY, row, "session_id", OrNull(p.sessionId))
  }

  ghost predicate PointReadsPart4(pr: Printer, row: seq<Field>, p: M.StoredMetricPoint) {
    && Reads(POINT_COPY, row, "received_at", Text(pr.time(p.receivedAt)))
    && Reads(POINT_COPY, row, "resource_attributes", Text(pr.json(JObject(p.resourceAttributes))))
    && Reads(POINT_COPY, row, "attributes", Text(pr.json(JObject(p.attributes))))
  }

  ghost predicate PointReads(pr: Printer, row: seq<Field>, p: M.StoredMetricPoint) {
    && PointReadsPart1(pr, row, p) && PointReadsPart2(pr, row, p) && PointReadsPart3(pr, row, p)
    && PointReadsPart4(pr, row, p)
  }

  // ---------------------------------------------------------------- one row

  lemma ReadsAt(columns: seq<string>, cells: Row, i: nat, name: string, c: Cell, f: Field)
    requires |cells| == |columns| && i < |columns| && columns[i] == name && cells[i] == c && Value(c) == f
    ensures Reads(columns, Values(cells), name, f)
  {
    assert Values(cells)[i] == Value(cells[i]);
  }

  lemma EventRowReads(pr: Printer, e: BufferedEvent)
    ensures EventReads(pr, Values(EventCells(ColumnsOfEvent(pr, e))), e)
  {
    var c, r := EVENT_COPY, EventCells(ColumnsOfEvent(pr, e));
    hide Values, OptText, OptNum, OptPlain, OrNull, Reads;
    ReadsAt(c, r, 0, "event_id", Bare(e.id), Text(e.id));
    ReadsAt(c, r, 1, "event_name", Quoted(e.name), Text(e.name));
    OptReads(c, r, 2, "tenant_id", e.tenant);
    ReadsAt(c, r, 3, "actor_id", Quoted(e.actor), Text(e.actor));
    ReadsAt(c, r, 4, "session_id", Quoted(e.session), Text(e.session));
    ReadsAt(c, r, 5, "timestamp_client", Bare(pr.time(e.timestamp)), Text(pr.time(e.timestamp)));
    ReadsAt(c, r, 6, "received_at", Bare(pr.time(e.receivedAt)), Text(pr.time(e.receivedAt)));
    ReadsAt(c, r, 7, "properties", Quoted(e.properties), Text(e.properties));
  }

  lemma NumReads(columns: seq<string>, cells: Row, i: nat, name: string, n: Option<int>)
    requires |cells| == |columns| && i < |columns| && columns[i] == name && cells[i] == OptNum(n)
    ensures Reads(columns, Values(cells), name, NumOrNull(n))
  {
    ReadsAt(columns, cells, i, name, OptNum(n), NumOrNull(n));
  }

  lemma PrintedReads<A>(columns: seq<string>, cells: Row, i: nat, name: string, f: A -> PlainText, x: Option<A>)
    requires |cells| == |columns| && i < |columns| && columns[i] == name && cells[i] == OptPlain(Printed(f, x))
    ensures Reads(columns, Values(cells), name, PrintedOrNull(f, x))
  {
    ReadsAt(columns, cells, i, name, OptPlain(Printed(f, x)), PrintedOrNull(f, x));
  }

  lemma JsonReads(pr: Printer, columns: seq<string>, cells: Row, i: nat, name: string, j: Option<Json>)
    requires |cells| == |columns| && i < |columns| && columns[i] == name
    requires cells[i] == OptText(if j.Some? then Some(pr.json(j.value)) else None)
    ensures Reads(columns, Values(cells), name, JsonOrNull(pr, j))
  {
    ReadsAt(columns, cells, i, name, cells[i], JsonOrNull(pr, j));
  }

  lemma OptReads(columns: seq<string>, cells: Row, i: nat, name: string, s: Option<string>)
    requires |cells| == |columns| && i < |columns| && columns[i] == name && cells[i] == OptText(s)
    ensures Reads(columns, Values(cells), name, OrNull(s))
  {
    ReadsAt(columns, cells, i, name, OptText(s), OrNull(s));
  }

  lemma LogRowPart1(pr: Printer, l: L.StoredLog)
    ensures LogReadsPart1(pr, Values(LogCells(ColumnsOfLog(pr, l))), l)
  {
    var c, r := LOG_COPY, LogCells(ColumnsOfLog(pr, l));
    hide Values, OptText, OptNum, OptPlain, OrNull, NumOrNull, PrintedOrNull, JsonOrNull, Reads;
    ReadsAt(c, r, 0, "log_id", Bare(pr.uuid(l.logId)), Text(pr.uuid(l.logId)));
    ReadsAt(c, r, 1, "log_time", Bare(pr.time(l.logTime)), Text(pr.time(l.logTime)));
    PrintedReads(c, r, 2, "observed_time", pr.time, l.observedTime);
    ReadsAt(c, r, 3, "received_at", Bare(pr.time(l.receivedAt)), Text(pr.time(l.receivedAt)));
  }

  lemma LogRowPart2(pr: Printer, l: L.StoredLog)
    ensures LogReadsPart2(pr, Values(LogCells(ColumnsOfLog(pr, l))), l)
  {
    var c, r := LOG_COPY, LogCells(ColumnsOfLog(pr, l));
    hide Values, OptText, OptNum, OptPlain, OrNull, NumOrNull, PrintedOrNull, JsonOrNull, Reads;
    NumReads(c, r, 4, "severity_number", l.severityNumber);
    OptReads(c, r, 5, "severity_text", l.severityText);
    OptReads(c, r, 6, "body", l.body);
    OptReads(c, r, 7, "service_name", l.serviceName);
    OptReads(c, r, 8, "scope_name", l.scopeName);
    OptReads(c, r, 9, "trace_id", l.traceId);
  }

  lemma LogRowPart3(pr: Printer, l: L.StoredLog)
    ensures LogReadsPart3(pr, Values(LogCells(ColumnsOfLog(pr, l))), l)
  {
    var c, r := LOG_COPY, LogCells(ColumnsOfLog(pr, l));
    hide Values, OptText, OptNum, OptPlain, OrNull, NumOrNull, PrintedOrNull, JsonOrNull, Reads;
    OptReads(c, r, 10, "span_id", l.spanId);
    OptReads(c, r, 11, "tenant_id", l.tenantId);
    OptReads(c, r, 12, "actor_id", l.actorId);
    OptReads(c, r, 13, "session_id", l.sessionId);
    ReadsAt(c, r, 14, "resource_attributes", Quoted(pr.json(JObject(l.resourceAttributes))),
            Text(pr.json(JObject(l.resourceAttributes))));
    ReadsAt(c, r, 15, "log_attributes", Quoted(pr.json(JObject(l.logAttributes))),
            Text(pr.json(JObject(l.logAttributes))));
  }

  lemma PointRowPart1(pr: Printer, p: M.StoredMetricPoint)
    ensures PointReadsPart1(pr, Values(MetricPointCells(ColumnsOfPoint(pr, p))), p)
  {
    var c, r := POINT_COPY, MetricPointCells(ColumnsOfPoint(pr, p));
    hide Values, OptText, OptNum, OptPlain, OrNull, NumOrNull, PrintedOrNull, JsonOrNull, Reads;
    ReadsAt(c, r, 0, "point_id", Bare(pr.uuid(p.pointId)), Text(pr.uuid(p.pointId)));
    ReadsAt(c, r, 1, "time", Bare(pr.time(p.time)), Text(pr.time(p.time)));
    ReadsAt(c, r, 2, "metric_name", Quoted(p.metricName), Text(p.metricName));
    ReadsAt(c, r, 3, "metric_type", Quoted(p.metricType), Text(p.metricType));
  }

  lemma PointRowPart2(pr: Printer, p: M.StoredMetricPoint)
    ensures PointReadsPart2(pr, Values(MetricPointCells(ColumnsOfPoint(pr, p))), p)
  {
    var c, r := POINT_COPY, MetricPointCells(ColumnsOfPoint(pr, p));
    hide Values, OptText, OptNum, OptPlain, OrNull, NumOrNull, PrintedOrNull, JsonOrNull, Reads;
    OptReads(c, r, 4, "unit", p.unit);
    PrintedReads(c, r, 5, "value_double", pr.float, p.valueDouble);
    NumReads(c, r, 6, "value_int", p.valueInt);
    NumReads(c, r, 7, "count", p.count);
    PrintedReads(c, r, 8, "sum", pr.float, p.sum);
    JsonReads(pr, c, r, 9, "buckets", p.buckets);
  }

  lemma PointRowPart3(pr: Printer, p: M.StoredMetricPoint)
    ensures PointReadsPart3(pr, Values(MetricPointCells(ColumnsOfPoint(pr, p))), p)
  {
    var c, r := POINT_COPY, MetricPointCells(ColumnsOfPoint(pr, p));
    hide Values, OptText, OptNum, OptPlain, OrNull, NumOrNull, PrintedOrNull, JsonOrNull, Reads;
    OptReads(c, r, 10, "service_name", p.serviceName);
    OptReads(c, r, 11, "scope_name", p.scopeName);
    OptReads(c, r, 12, "tenant_id", p.tenantId);
    OptReads(c, r, 13, "actor_id", p.actorId);
    OptReads(c, r, 14, "session_id", p.sessionId);
  }

  lemma PointRowPart4(pr: Printer, p: M.StoredMetricPoint)
    ensures PointReadsPart4(pr, Values(MetricPointCells(ColumnsOfPoint(pr, p))), p)
  {
    var c, r := POINT_COPY, MetricPointCells(ColumnsOfPoint(pr, p));
    hide Values, OptText, OptNum, OptPlain, OrNull, NumOrNull, PrintedOrNull, JsonOrNull, Reads;
    ReadsAt(c, r, 15, "received_at", Bare(pr.time(p.receivedAt)), Text(pr.time(p.receivedAt)));
    ReadsAt(c, r, 16, "resource_attributes", Quoted(pr.json(JObject(p.resourceAttributes))),
            Text(pr.json(JObject(p.resourceAttributes))));
    ReadsAt(c, r, 17, "attributes", Quoted(pr.json(JObject(p.attributes))), Text(pr.json(JObject(p.attributes))));
  }

  // ---------------------------------------------------------------- a whole flush

  lemma EventsAreReadByName(pr: Printer, events: seq<BufferedEvent>)
    ensures var rows := ParseAll(RowsText(Rows(EventRecords(pr, events))));
            && rows.Some? && |rows.value| == |events|
            && forall i :: 0 <= i < |events| ==> EventReads(pr, rows.value[i], events[i])
  {
    var records := EventRecords(pr, events);
    hide RowsText, Rows, ParseAll, Values, EventCells, ColumnsOfEvent, EventReads;
    BatchIsReadBack(records);
    forall i | 0 <= i < |events|
      ensures AllValues(Rows(records))[i] == Values(EventCells(ColumnsOfEvent(pr, events[i])))
      ensures EventReads(pr, AllValues(Rows(records))[i], events[i])
    {
      assert records[i] == OfEvents(ColumnsOfEvent(pr, events[i]));
      EventRowReads(pr, events[i]);
    }
  }

  /** From a flattened log to its columns in the database. */
  lemma LogsAreReadByName(pr: Printer, logs: seq<L.StoredLog>)
    ensures var rows := ParseAll(RowsText(Rows(LogRecords(pr, logs))));
            && rows.Some? && |rows.value| == |logs|
            && forall i :: 0 <= i < |logs| ==> LogReads(pr, rows.value[i], logs[i])
  {
    var records := LogRecords(pr, logs);
    hide RowsText, Rows, ParseAll, Values, LogCells, ColumnsOfLog, LogReadsPart1, LogReadsPart2, LogReadsPart3;
    BatchIsReadBack(records);
    forall i | 0 <= i < |logs|
      ensures AllValues(Rows(records))[i] == Values(LogCells(ColumnsOfLog(pr, logs[i])))
      ensures LogReads(pr, AllValues(Rows(records))[i], logs[i])
    {
      assert records[i] == OfLogs(ColumnsOfLog(pr, logs[i]));
      LogRowPart1(pr, logs[i]);
      LogRowPart2(pr, logs[i]);
      LogRowPart3(pr, logs[i]);
    }
  }

  lemma PointsAreReadByName(pr: Printer, points: seq<M.StoredMetricPoint>)
    ensures var rows := ParseAll(RowsText(Rows(PointRecords(pr, points))));
            && rows.Some? && |rows.value| == |points|
            && forall i :: 0 <= i < |points| ==> PointReads(pr, rows.value[i], points[i])
  {
    var records := PointRecords(pr, points);
    hide RowsText, Rows, ParseAll, Values, MetricPointCells, ColumnsOfPoint, PointReadsPart1, PointReadsPart2,
         PointReadsPart3, PointReadsPart4;
    BatchIsReadBack(records);
    forall i | 0 <= i < |points|
      ensures AllValues(Rows(records))[i] == Values(MetricPointCells(ColumnsOfPoint(pr, points[i])))
      ensures PointReads(pr, AllValues(Rows(records))[i], points[i])
    {
      assert records[i] == OfMetrics(ColumnsOfPoint(pr, points[i]));
      PointRowPart1(pr, points[i]);
      PointRowPart2(pr, points[i]);
      PointRowPart3(pr, points[i]);
      PointRowPart4(pr, points[i]);
    }
  }
}

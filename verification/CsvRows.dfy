/** The rows of the events, the logs and the metric points. Instants, UUIDs and floats come as printed text. */
module CsvRows {
  import opened Common
  import opened Decimal
  import opened Csv

  /** The first k cells, each followed by its comma. */
  ghost function Written(cells: Row, k: nat): string
    requires k <= |cells|
  {
    if k == 0 then "" else Written(cells, k - 1) + CellText(cells[k - 1]) + ","
  }

  lemma {:induction false} WrittenFrom(cells: Row, k: nat)
    requires k < |cells|
    ensures Written(cells, k) + RowText(cells[k..]) == RowText(cells)
  {
    if k > 0 {
      assert cells[k - 1..][1..] == cells[k..];
      WrittenFrom(cells, k - 1);
    }
  }

  lemma Nothing(start: string, cells: Row)
    ensures start + Written(cells, 0) == start
  {
  }

  /** One more column. */
  lemma Extend(start: string, cells: Row, k: nat)
    requires k < |cells|
    ensures start + Written(cells, k) + CellText(cells[k]) + "," == start + Written(cells, k + 1)
  {
  }

  lemma EndRow(start: string, cells: Row)
    ensures start + Written(cells, |cells| - 1) + CellText(cells[|cells| - 1]) + "\n" == start + RowText(cells)
  {
    WrittenFrom(cells, |cells| - 1);
    var w, c := Written(cells, |cells| - 1), CellText(cells[|cells| - 1]);
    assert RowText(cells) == w + (c + "\n");
    assert start + w + c + "\n" == start + (w + (c + "\n"));
  }

  datatype EventColumns = EventColumns(
    eventId: PlainText,
    eventName: string,
    tenantId: Option<string>,
    actorId: string,
    sessionId: string,
    timestampClient: PlainText,
    receivedAt: PlainText,
    properties: string)

  function EventCells(r: EventColumns): Row {
    [Bare(r.eventId), Quoted(r.eventName), OptText(r.tenantId), Quoted(r.actorId), Quoted(r.sessionId),
     Bare(r.timestampClient), Bare(r.receivedAt), Quoted(r.properties)]
  }

  method WriteEvent(r: EventColumns, out: CsvBuffer)
    modifies out
    ensures out.text == old(out.text) + RowText(EventCells(r))
  {
    ghost var start, cells := out.text, EventCells(r);
    hide CellText, Written, RowText, OptText, OptPlain, OptNum;
    Nothing(start, cells);
    out.PushBare(r.eventId); out.Push(","); Extend(start, cells, 0);
    out.PushQuoted(r.eventName); out.Push(","); Extend(start, cells, 1);
    out.PushOpt(r.tenantId); out.Push(","); Extend(start, cells, 2);
    out.PushQuoted(r.actorId); out.Push(","); Extend(start, cells, 3);
    out.PushQuoted(r.sessionId); out.Push(","); Extend(start, cells, 4);
    out.PushBare(r.timestampClient); out.Push(","); Extend(start, cells, 5);
    out.PushBare(r.receivedAt); out.Push(","); Extend(start, cells, 6);
    out.PushQuoted(r.properties); out.Push("\n");
    EndRow(start, cells);
  }

  datatype LogColumns = LogColumns(
    logId: PlainText,
    logTime: PlainText,
    observedTime: Option<PlainText>,
    receivedAt: PlainText,
    severityNumber: Option<int>,
    severityText: Option<string>,
    body: Option<string>,
    serviceName: Option<string>,
    scopeName: Option<string>,
    traceId: Option<string>,
    spanId: Option<string>,
    tenantId: Option<string>,
    actorId: Option<string>,
    sessionId: Option<string>,
    resourceAttributes: string,
    logAttributes: string)

  function LogCells(r: LogColumns): Row {
    [Bare(r.logId), Bare(r.logTime), OptPlain(r.observedTime), Bare(r.receivedAt), OptNum(r.severityNumber),
     OptText(r.severityText), OptText(r.body), OptText(r.serviceName), OptText(r.scopeName), OptText(r.traceId),
     OptText(r.spanId), OptText(r.tenantId), OptText(r.actorId), OptText(r.sessionId),
     Quoted(r.resourceAttributes), Quoted(r.logAttributes)]
  }

  method WriteLogPart1(r: LogColumns, out: CsvBuffer, ghost start: string)
    requires out.text == start + Written(LogCells(r), 0)
    modifies out
    ensures out.text == start + Written(LogCells(r), 5)
  {
    ghost var cells := LogCells(r);
    hide CellText, Written, RowText, OptText, OptPlain, OptNum;
    out.PushBare(r.logId); out.Push(","); Extend(start, cells, 0);
    out.PushBare(r.logTime); out.Push(","); Extend(start, cells, 1);
    out.PushPlain(r.observedTime); out.Push(","); Extend(start, cells, 2);
    out.PushBare(r.receivedAt); out.Push(","); Extend(start, cells, 3);
    out.PushNum(r.severityNumber); out.Push(","); Extend(start, cells, 4);
  }

  method WriteLogPart2(r: LogColumns, out: CsvBuffer, ghost start: string)
    requires out.text == start + Written(LogCells(r), 5)
    modifies out
    ensures out.text == start + Written(LogCells(r), 10)
  {
    ghost var cells := LogCells(r);
    hide CellText, Written, RowText, OptText, OptPlain, OptNum;
    out.PushOpt(r.severityText); out.Push(","); Extend(start, cells, 5);
    out.PushOpt(r.body); out.Push(","); Extend(start, cells, 6);
    out.PushOpt(r.serviceName); out.Push(","); Extend(start, cells, 7);
    out.PushOpt(r.scopeName); out.Push(","); Extend(start, cells, 8);
    out.PushOpt(r.traceId); out.Push(","); Extend(start, cells, 9);
  }

  method WriteLogPart3(r: LogColumns, out: CsvBuffer, ghost start: string)
    requires out.text == start + Written(LogCells(r), 10)
    modifies out
    ensures out.text == start + Written(LogCells(r), 15)
  {
    ghost var cells := LogCells(r);
    hide CellText, Written, RowText, OptText, OptPlain, OptNum;
    out.PushOpt(r.spanId); out.Push(","); Extend(start, cells, 10);
    out.PushOpt(r.tenantId); out.Push(","); Extend(start, cells, 11);
    out.PushOpt(r.actorId); out.Push(","); Extend(start, cells, 12);
    out.PushOpt(r.sessionId); out.Push(","); Extend(start, cells, 13);
    out.PushQuoted(r.resourceAttributes); out.Push(","); Extend(start, cells, 14);
  }

  method WriteLog(r: LogColumns, out: CsvBuffer)
    modifies out
    ensures out.text == old(out.text) + RowText(LogCells(r))
  {
    ghost var start, cells := out.text, LogCells(r);
    hide CellText, Written, RowText, OptText, OptPlain, OptNum;
    Nothing(start, cells);
    WriteLogPart1(r, out, start);
    WriteLogPart2(r, out, start);
    WriteLogPart3(r, out, start);
    out.PushQuoted(r.logAttributes); out.Push("\n");
    EndRow(start, cells);
  }

  datatype MetricPointColumns = MetricPointColumns(
    pointId: PlainText,
    time: PlainText,
    metricName: string,
    metricType: string,
    unit: Option<string>,
    valueDouble: Option<PlainText>,
    valueInt: Option<int>,
    count: Option<int>,
    sum: Option<PlainText>,
    buckets: Option<string>,
    serviceName: Option<string>,
    scopeName: Option<string>,
    tenantId: Option<string>,
    actorId: Option<string>,
    sessionId: Option<string>,
    receivedAt: PlainText,
    resourceAttributes: string,
    attributes: string)

  function MetricPointCells(r: MetricPointColumns): Row {
    [Bare(r.pointId), Bare(r.time), Quoted(r.metricName), Quoted(r.metricType), OptText(r.unit),
     OptPlain(r.valueDouble), OptNum(r.valueInt), OptNum(r.count), OptPlain(r.sum), OptText(r.buckets),
     OptText(r.serviceName), OptText(r.scopeName), OptText(r.tenantId), OptText(r.actorId),
     OptText(r.sessionId), Bare(r.receivedAt), Quoted(r.resourceAttributes), Quoted(r.attributes)]
  }

  method WriteMetricPointPart1(r: MetricPointColumns, out: CsvBuffer, ghost start: string)
    requires out.text == start + Written(MetricPointCells(r), 0)
    modifies out
    ensures out.text == start + Written(MetricPointCells(r), 5)
  {
    ghost var cells := MetricPointCells(r);
    hide CellText, Written, RowText, OptText, OptPlain, OptNum;
    out.PushBare(r.pointId); out.Push(","); Extend(start, cells, 0);
    out.PushBare(r.time); out.Push(","); Extend(start, cells, 1);
    out.PushQuoted(r.metricName); out.Push(","); Extend(start, cells, 2);
    out.PushQuoted(r.metricType); out.Push(","); Extend(start, cells, 3);
    out.PushOpt(r.unit); out.Push(","); Extend(start, cells, 4);
  }

  method WriteMetricPointPart2(r: MetricPointColumns, out: CsvBuffer, ghost start: string)
    requires out.text == start + Written(MetricPointCells(r), 5)
    modifies out
    ensures out.text == start + Written(MetricPointCells(r), 10)
  {
    ghost var cells := MetricPointCells(r);
    hide CellText, Written, RowText, OptText, OptPlain, OptNum;
    out.PushPlain(r.valueDouble); out.Push(","); Extend(start, cells, 5);
    out.PushNum(r.valueInt); out.Push(","); Extend(start, cells, 6);
    out.PushNum(r.count); out.Push(","); Extend(start, cells, 7);
    out.PushPlain(r.sum); out.Push(","); Extend(start, cells, 8);
    out.PushOpt(r.buckets); out.Push(","); Extend(start, cells, 9);
  }

  method WriteMetricPointPart3(r: MetricPointColumns, out: CsvBuffer, ghost start: string)
    requires out.text == start + Written(MetricPointCells(r), 10)
    modifies out
    ensures out.text == start + Written(MetricPointCells(r), 15)
  {
    ghost var cells := MetricPointCells(r);
    hide CellText, Written, RowText, OptText, OptPlain, OptNum;
    out.PushOpt(r.serviceName); out.Push(","); Extend(start, cells, 10);
    out.PushOpt(r.scopeName); out.Push(","); Extend(start, cells, 11);
    out.PushOpt(r.tenantId); out.Push(","); Extend(start, cells, 12);
    out.PushOpt(r.actorId); out.Push(","); Extend(start, cells, 13);
    out.PushOpt(r.sessionId); out.Push(","); Extend(start, cells, 14);
  }

  method WriteMetricPoint(r: MetricPointColumns, out: CsvBuffer)
    modifies out
    ensures out.text == old(out.text) + RowText(MetricPointCells(r))
  {
    ghost var start, cells := out.text, MetricPointCells(r);
    hide CellText, Written, RowText, OptText, OptPlain, OptNum;
    Nothing(start, cells);
    WriteMetricPointPart1(r, out, start);
    WriteMetricPointPart2(r, out, start);
    WriteMetricPointPart3(r, out, start);
    out.PushBare(r.receivedAt); out.Push(","); Extend(start, cells, 15);
    out.PushQuoted(r.resourceAttributes); out.Push(","); Extend(start, cells, 16);
    out.PushQuoted(r.attributes); out.Push("\n");
    EndRow(start, cells);
  }

  // ---------------------------------------------------------------- batches

  /** What can be ingested, each domain with its row. */
  datatype Record = OfEvents(e: EventColumns) | OfLogs(l: LogColumns) | OfMetrics(p: MetricPointColumns)

  function Cells(r: Record): Row {
    match r
    case OfEvents(e) => EventCells(e)
    case OfLogs(l) => LogCells(l)
    case OfMetrics(p) => MetricPointCells(p)
  }

  method WriteCsvRow(r: Record, out: CsvBuffer)
    modifies out
    ensures out.text == old(out.text) + RowText(Cells(r))
  {
    match r
    case OfEvents(e) => WriteEvent(e, out);
    case OfLogs(l) => WriteLog(l, out);
    case OfMetrics(p) => WriteMetricPoint(p, out);
  }

  /** The rows of a batch, in order. */
  function Rows(batch: seq<Record>): (rows: seq<Row>)
    ensures |rows| == |batch|
  {
    if batch == [] then [] else [Cells(batch[0])] + Rows(batch[1..])
  }

  lemma {:induction false} RowsTextAppend(a: seq<Row>, b: Row)
    ensures RowsText(a + [b]) == RowsText(a) + RowText(b)
    decreases |a|
  {
    if a == [] {
      assert a + [b] == [b] && [b][1..] == [];
    } else {
      assert (a + [b])[1..] == a[1..] + [b];
      RowsTextAppend(a[1..], b);
    }
  }

  lemma {:induction false} RowsAppend(batch: seq<Record>, r: Record)
    ensures Rows(batch + [r]) == Rows(batch) + [Cells(r)]
    decreases |batch|
  {
    if batch == [] {
      assert [r][1..] == [];
    } else {
      assert (batch + [r])[1..] == batch[1..] + [r];
      RowsAppend(batch[1..], r);
    }
  }

  /** The text one flush sends: a row per record of the batch. */
  method WriteBatch(batch: seq<Record>, out: CsvBuffer)
    requires out.text == ""
    modifies out
    ensures out.text == RowsText(Rows(batch))
  {
    for i := 0 to |batch|
      invariant out.text == RowsText(Rows(batch[..i]))
    {
      assert batch[..i + 1] == batch[..i] + [batch[i]];
      RowsAppend(batch[..i], batch[i]);
      RowsTextAppend(Rows(batch[..i]), Cells(batch[i]));
      WriteCsvRow(batch[i], out);
    }
    assert batch[..|batch|] == batch;
  }

  lemma {:induction false} RowsAt(batch: seq<Record>, i: nat)
    requires i < |batch|
    ensures Rows(batch)[i] == Cells(batch[i])
  {
    if i > 0 {
      RowsAt(batch[1..], i - 1);
    }
  }

  /** What the database reads from a flush: the records of the batch, column by column. */
  lemma BatchIsReadBack(batch: seq<Record>)
    ensures ParseAll(RowsText(Rows(batch))) == Some(AllValues(Rows(batch)))
    ensures |AllValues(Rows(batch))| == |batch|
    ensures forall i :: 0 <= i < |batch| ==> AllValues(Rows(batch))[i] == Values(Cells(batch[i]))
  {
    hide RowsText, ParseAll, Cells, Values;
    RoundTrip(Rows(batch));
    forall i | 0 <= i < |batch| ensures Rows(batch)[i] == Cells(batch[i]) {
      RowsAt(batch, i);
    }
  }

  lemma EventValuesInjective(a: EventColumns, b: EventColumns)
    requires Values(EventCells(a)) == Values(EventCells(b))
    ensures a == b
  {
    var va, vb := Values(EventCells(a)), Values(EventCells(b));
    assert va[0] == vb[0] && va[1] == vb[1] && va[2] == vb[2] && va[3] == vb[3];
    assert va[4] == vb[4] && va[5] == vb[5] && va[6] == vb[6] && va[7] == vb[7];
  }

  lemma TextAt(x: Row, y: Row, i: nat, a: Option<string>, b: Option<string>)
    requires Values(x) == Values(y) && i < |x| && i < |y| && x[i] == OptText(a) && y[i] == OptText(b)
    ensures a == b
  {
    assert Values(x)[i] == Values(y)[i];
  }

  lemma PlainAt(x: Row, y: Row, i: nat, a: Option<PlainText>, b: Option<PlainText>)
    requires Values(x) == Values(y) && i < |x| && i < |y| && x[i] == OptPlain(a) && y[i] == OptPlain(b)
    ensures a == b
  {
    assert Values(x)[i] == Values(y)[i];
  }

  lemma NumAt(x: Row, y: Row, i: nat, a: Option<int>, b: Option<int>)
    requires Values(x) == Values(y) && i < |x| && i < |y| && x[i] == OptNum(a) && y[i] == OptNum(b)
    ensures a == b
  {
    assert Values(x)[i] == Values(y)[i];
    if a.Some? && b.Some? {
      PrintIntInjective(a.value, b.value);
    }
  }

  lemma CellAt(x: Row, y: Row, i: nat, a: Cell, b: Cell)
    requires Values(x) == Values(y) && i < |x| && i < |y| && x[i] == a && y[i] == b
    ensures Value(a) == Value(b)
  {
    assert Values(x)[i] == Values(y)[i];
  }

  lemma LogValuesPart1(a: LogColumns, b: LogColumns, x: Row, y: Row)
    requires x == LogCells(a) && y == LogCells(b) && Values(x) == Values(y)
    ensures a.logId == b.logId && a.logTime == b.logTime && a.observedTime == b.observedTime
            && a.receivedAt == b.receivedAt
    ensures a.severityNumber == b.severityNumber
  {
    hide Values, OptText, OptPlain, OptNum;
    CellAt(x, y, 0, Bare(a.logId), Bare(b.logId));
    CellAt(x, y, 1, Bare(a.logTime), Bare(b.logTime));
    PlainAt(x, y, 2, a.observedTime, b.observedTime);
    CellAt(x, y, 3, Bare(a.receivedAt), Bare(b.receivedAt));
    NumAt(x, y, 4, a.severityNumber, b.severityNumber);
  }

  lemma LogValuesPart2(a: LogColumns, b: LogColumns, x: Row, y: Row)
    requires x == LogCells(a) && y == LogCells(b) && Values(x) == Values(y)
    ensures a.severityText == b.severityText && a.body == b.body && a.serviceName == b.serviceName
            && a.scopeName == b.scopeName
    ensures a.traceId == b.traceId
  {
    hide Values, OptText, OptPlain, OptNum;
    TextAt(x, y, 5, a.severityText, b.severityText);
    TextAt(x, y, 6, a.body, b.body);
    TextAt(x, y, 7, a.serviceName, b.serviceName);
    TextAt(x, y, 8, a.scopeName, b.scopeName);
    TextAt(x, y, 9, a.traceId, b.traceId);
  }

  lemma LogValuesPart3(a: LogColumns, b: LogColumns, x: Row, y: Row)
    requires x == LogCells(a) && y == LogCells(b) && Values(x) == Values(y)
    ensures a.spanId == b.spanId && a.tenantId == b.tenantId && a.actorId == b.actorId && a.sessionId == b.sessionId
    ensures a.resourceAttributes == b.resourceAttributes && a.logAttributes == b.logAttributes
  {
    hide Values, OptText, OptPlain, OptNum;
    TextAt(x, y, 10, a.spanId, b.spanId);
    TextAt(x, y, 11, a.tenantId, b.tenantId);
    TextAt(x, y, 12, a.actorId, b.actorId);
    TextAt(x, y, 13, a.sessionId, b.sessionId);
    CellAt(x, y, 14, Quoted(a.resourceAttributes), Quoted(b.resourceAttributes));
    CellAt(x, y, 15, Quoted(a.logAttributes), Quoted(b.logAttributes));
  }

  lemma LogValuesInjective(a: LogColumns, b: LogColumns)
    requires Values(LogCells(a)) == Values(LogCells(b))
    ensures a == b
  {
    hide Values, LogCells;
    LogValuesPart1(a, b, LogCells(a), LogCells(b));
    LogValuesPart2(a, b, LogCells(a), LogCells(b));
    LogValuesPart3(a, b, LogCells(a), LogCells(b));
  }

  lemma MetricPointValuesPart1(a: MetricPointColumns, b: MetricPointColumns, x: Row, y: Row)
    requires x == MetricPointCells(a) && y == MetricPointCells(b) && Values(x) == Values(y)
    ensures a.pointId == b.pointId && a.time == b.time && a.metricName == b.metricName && a.metricType == b.metricType
    ensures a.unit == b.unit
  {
    hide Values, OptText, OptPlain, OptNum;
    CellAt(x, y, 0, Bare(a.pointId), Bare(b.pointId));
    CellAt(x, y, 1, Bare(a.time), Bare(b.time));
    CellAt(x, y, 2, Quoted(a.metricName), Quoted(b.metricName));
    CellAt(x, y, 3, Quoted(a.metricType), Quoted(b.metricType));
    TextAt(x, y, 4, a.unit, b.unit);
  }

  lemma MetricPointValuesPart2(a: MetricPointColumns, b: MetricPointColumns, x: Row, y: Row)
    requires x == MetricPointCells(a) && y == MetricPointCells(b) && Values(x) == Values(y)
    ensures a.valueDouble == b.valueDouble && a.valueInt == b.valueInt && a.count == b.count && a.sum == b.sum
    ensures a.buckets == b.buckets
  {
    hide Values, OptText, OptPlain, OptNum;
    PlainAt(x, y, 5, a.valueDouble, b.valueDouble);
    NumAt(x, y, 6, a.valueInt, b.valueInt);
    NumAt(x, y, 7, a.count, b.count);
    PlainAt(x, y, 8, a.sum, b.sum);
    TextAt(x, y, 9, a.buckets, b.buckets);
  }

  lemma MetricPointValuesPart3(a: MetricPointColumns, b: MetricPointColumns, x: Row, y: Row)
    requires x == MetricPointCells(a) && y == MetricPointCells(b) && Values(x) == Values(y)
    ensures a.serviceName == b.serviceName && a.scopeName == b.scopeName && a.tenantId == b.tenantId
            && a.actorId == b.actorId
    ensures a.sessionId == b.sessionId && a.receivedAt == b.receivedAt && a.resourceAttributes == b.resourceAttributes
            && a.attributes == b.attributes
  {
    hide Values, OptText, OptPlain, OptNum;
    TextAt(x, y, 10, a.serviceName, b.serviceName);
    TextAt(x, y, 11, a.scopeName, b.scopeName);
    TextAt(x, y, 12, a.tenantId, b.tenantId);
    TextAt(x, y, 13, a.actorId, b.actorId);
    TextAt(x, y, 14, a.sessionId, b.sessionId);
    CellAt(x, y, 15, Bare(a.receivedAt), Bare(b.receivedAt));
    CellAt(x, y, 16, Quoted(a.resourceAttributes), Quoted(b.resourceAttributes));
    CellAt(x, y, 17, Quoted(a.attributes), Quoted(b.attributes));
  }

  lemma MetricPointValuesInjective(a: MetricPointColumns, b: MetricPointColumns)
    requires Values(MetricPointCells(a)) == Values(MetricPointCells(b))
    ensures a == b
  {
    hide Values, MetricPointCells;
    MetricPointValuesPart1(a, b, MetricPointCells(a), MetricPointCells(b));
    MetricPointValuesPart2(a, b, MetricPointCells(a), MetricPointCells(b));
    MetricPointValuesPart3(a, b, MetricPointCells(a), MetricPointCells(b));
  }

  /** The values of a row determine the record, of whichever domain, None apart from Some(""). */
  lemma ValuesInjective(a: Record, b: Record)
    requires Values(Cells(a)) == Values(Cells(b))
    ensures a == b
  {
    assert |Values(Cells(a))| == |Cells(a)| && |Values(Cells(b))| == |Cells(b)|;
    assert |Cells(a)| == match a case OfEvents(_) => 8 case OfLogs(_) => 16 case OfMetrics(_) => 18;
    assert |Cells(b)| == match b case OfEvents(_) => 8 case OfLogs(_) => 16 case OfMetrics(_) => 18;
    hide Values, EventCells, LogCells, MetricPointCells;
    if a.OfEvents? {
      EventValuesInjective(a.e, b.e);
    } else if a.OfLogs? {
      LogValuesInjective(a.l, b.l);
    } else {
      MetricPointValuesInjective(a.p, b.p);
    }
  }

  /** Two batches with the same text are the same batch. */
  lemma BatchTextInjective(a: seq<Record>, b: seq<Record>)
    requires RowsText(Rows(a)) == RowsText(Rows(b))
    ensures a == b
  {
    BatchIsReadBack(a);
    BatchIsReadBack(b);
    forall i | 0 <= i < |a| ensures a[i] == b[i] {
      ValuesInjective(a[i], b[i]);
    }
  }
}

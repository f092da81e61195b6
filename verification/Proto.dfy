// The OTLP proto3 messages both encoders describe. A plain scalar field has
// implicit presence and is a bare value; an `optional` scalar and a message
// field have explicit presence and are an Option; a oneof is a datatype.
module Proto {
  import opened Wrappers
  import opened Text
  import opened Model

  datatype AnyValue =
    | NoValue
    | StringValue(s: string)
    | BoolValue(b: bool)
    | IntValue(i: I64)
    | DoubleValue(d: Float)
    | BytesValue(bytes: seq<Byte>)
    | ArrayValue(values: seq<AnyValue>)
    | KvlistValue(entries: seq<KeyValue>)

  datatype KeyValue = KeyValue(key: string, value: Option<AnyValue>)

  datatype Resource = Resource(attributes: seq<KeyValue>, droppedAttributesCount: U32)
  datatype Scope = Scope(name: string, version: string, attributes: seq<KeyValue>)

  // The oneof of NumberDataPoint and Exemplar.
  datatype Number = NoNumber | AsInt(i: I64) | AsDouble(d: Float)

  datatype Exemplar = Exemplar(
    filteredAttributes: seq<KeyValue>, timeUnixNano: U64, value: Number,
    spanId: seq<Byte>, traceId: seq<Byte>)

  datatype NumberDataPoint = NumberDataPoint(
    attributes: seq<KeyValue>, startTimeUnixNano: U64, timeUnixNano: U64, flags: U32,
    exemplars: seq<Exemplar>, value: Number)

  datatype HistogramDataPoint = HistogramDataPoint(
    attributes: seq<KeyValue>, startTimeUnixNano: U64, timeUnixNano: U64, count: U64,
    sum: Option<Float>, bucketCounts: seq<U64>, explicitBounds: seq<Float>, flags: U32,
    exemplars: seq<Exemplar>, min: Option<Float>, max: Option<Float>)

  datatype Buckets = Buckets(offset: I32, bucketCounts: seq<U64>)

  datatype ExponentialPoint = ExponentialPoint(
    attributes: seq<KeyValue>, startTimeUnixNano: U64, timeUnixNano: U64, count: U64,
    sum: Option<Float>, scale: I32, zeroCount: U64, positive: Option<Buckets>,
    negative: Option<Buckets>, min: Option<Float>, max: Option<Float>, flags: U32,
    exemplars: seq<Exemplar>, zeroThreshold: Float)

  datatype ValueAtQuantile = ValueAtQuantile(quantile: Float, value: Float)

  datatype SummaryDataPoint = SummaryDataPoint(
    attributes: seq<KeyValue>, startTimeUnixNano: U64, timeUnixNano: U64, count: U64, sum: Float,
    quantileValues: seq<ValueAtQuantile>, flags: U32)

  // Enums are open, so a temporality is a number.
  datatype MetricData =
    | NoData
    | Gauge(points: seq<NumberDataPoint>)
    | Sum(sumPoints: seq<NumberDataPoint>, sumTemporality: I32, isMonotonic: bool)
    | Histogram(histogramPoints: seq<HistogramDataPoint>, histogramTemporality: I32)
    | ExponentialHistogram(exponentialPoints: seq<ExponentialPoint>, exponentialTemporality: I32)
    | Summary(summaryPoints: seq<SummaryDataPoint>)

  datatype Metric = Metric(name: string, description: string, unit: string, data: MetricData)
  datatype ScopeMetrics = ScopeMetrics(scope: Option<Scope>, metrics: seq<Metric>)
  datatype ResourceMetrics = ResourceMetrics(resource: Option<Resource>, scopeMetrics: seq<ScopeMetrics>)

  datatype LogRecord = LogRecord(
    timeUnixNano: U64, observedTimeUnixNano: U64, severityNumber: I32, severityText: string,
    body: Option<AnyValue>, attributes: seq<KeyValue>, traceId: seq<Byte>, spanId: seq<Byte>,
    eventName: string, flags: U32)
  datatype ScopeLogs = ScopeLogs(scope: Option<Scope>, logRecords: seq<LogRecord>)
  datatype ResourceLogs = ResourceLogs(resource: Option<Resource>, scopeLogs: seq<ScopeLogs>)

  datatype Status = Status(code: I32, message: string)
  datatype SpanEvent = SpanEvent(timeUnixNano: U64, name: string, attributes: seq<KeyValue>)
  datatype SpanLink = SpanLink(
    traceId: seq<Byte>, spanId: seq<Byte>, traceState: string, attributes: seq<KeyValue>, flags: U32)
  datatype Span = Span(
    traceId: seq<Byte>, spanId: seq<Byte>, parentSpanId: seq<Byte>, name: string, kind: I32,
    startTimeUnixNano: U64, endTimeUnixNano: U64, traceState: string, flags: U32,
    attributes: seq<KeyValue>, events: seq<SpanEvent>, links: seq<SpanLink>, status: Option<Status>)
  datatype ScopeSpans = ScopeSpans(scope: Option<Scope>, spans: seq<Span>)
  datatype ResourceSpans = ResourceSpans(resource: Option<Resource>, scopeSpans: seq<ScopeSpans>)
}

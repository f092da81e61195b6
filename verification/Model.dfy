// The OTLP data model (src/otlp_client/model): the tree both encoders read.
module Model {
  import opened Wrappers
  import opened Text

  // The ranges of the wire fields. protobuf refuses anything wider, so the
  // model tree carries only values a message can hold.
  type U64 = n: int | 0 <= n < 0x1_0000_0000_0000_0000
  type I64 = n: int | -0x8000_0000_0000_0000 <= n < 0x8000_0000_0000_0000
  type U32 = n: int | 0 <= n < 0x1_0000_0000
  type I32 = n: int | -0x8000_0000 <= n < 0x8000_0000

  // A finite double up to its bit pattern: the two zeros are different values
  // that compare equal.
  datatype Double = PosZero | NegZero | Nonzero(r: real) {
    // Python's truth value of a float.
    predicate Truthy() { Nonzero? && r != 0.0 }

    // math.copysign(1.0, x) < 0
    predicate SignBit() { NegZero? || (Nonzero? && r < 0.0) }
  }

  // A float that is written as it is: Nonzero really is not a zero.
  type Float = d: Double | d.Nonzero? ==> d.r != 0.0 witness PosZero

  // Unsupported is any value outside the union: both encoders raise TypeError.
  datatype AnyValue =
    | StringValue(s: string)
    | BoolValue(b: bool)
    | IntValue(i: I64)
    | DoubleValue(d: Float)
    | BytesValue(bytes: seq<Byte>)
    | ListValue(values: seq<AnyValue>)
    | MapValue(entries: seq<Attribute>)
    | Unsupported

  // The TypeErrors the encoders raise themselves.
  datatype TypeError = BooleanPoint | BooleanExemplar | UnsupportedAttribute

  // One item of a mapping, in iteration order.
  datatype Attribute = Attribute(key: string, value: AnyValue)

  type Attributes = seq<Attribute>

  datatype Resource = Resource(attributes: Attributes, droppedAttributesCount: U32)

  datatype Scope = Scope(name: string, version: Option<string>, attributes: Attributes)

  // ---- metrics ----

  // A point's value: bool is a subclass of int, so it can arrive here.
  datatype Measurement = IntMeasurement(i: I64) | FloatMeasurement(d: Float) | BoolMeasurement(b: bool)

  datatype Temporality = Unspecified | Delta | Cumulative {
    function Number(): I32 {
      match this
      case Unspecified => 0
      case Delta => 1
      case Cumulative => 2
    }
  }

  datatype Exemplar = Exemplar(
    filteredAttributes: Attributes, timeUnixNano: U64, value: Measurement,
    spanId: Option<seq<Byte>>, traceId: Option<seq<Byte>>)

  datatype NumberDataPoint = NumberDataPoint(
    timeUnixNano: U64, value: Measurement, attributes: Attributes, startTimeUnixNano: Option<U64>,
    exemplars: seq<Exemplar>, flags: U32)

  datatype HistogramDataPoint = HistogramDataPoint(
    timeUnixNano: U64, count: U64, bucketCounts: seq<U64>, explicitBounds: seq<Float>,
    sum: Option<Float>, attributes: Attributes, startTimeUnixNano: Option<U64>,
    exemplars: seq<Exemplar>, flags: U32, min: Option<Float>, max: Option<Float>)

  datatype Buckets = Buckets(offset: I32, bucketCounts: seq<U64>)

  datatype ExponentialPoint = ExponentialPoint(
    timeUnixNano: U64, count: U64, scale: I32, zeroCount: U64, positive: Buckets, negative: Buckets,
    sum: Option<Float>, min: Option<Float>, max: Option<Float>, attributes: Attributes,
    startTimeUnixNano: Option<U64>, flags: U32, exemplars: seq<Exemplar>, zeroThreshold: Float)

  datatype ValueAtQuantile = ValueAtQuantile(quantile: Float, value: Float)

  datatype SummaryDataPoint = SummaryDataPoint(
    timeUnixNano: U64, count: U64, sum: Float, quantileValues: seq<ValueAtQuantile>,
    attributes: Attributes, startTimeUnixNano: Option<U64>, flags: U32)

  datatype MetricData =
    | Gauge(points: seq<NumberDataPoint>)
    | Sum(sumPoints: seq<NumberDataPoint>, sumTemporality: Temporality, isMonotonic: bool)
    | Histogram(histogramPoints: seq<HistogramDataPoint>, histogramTemporality: Temporality)
    | ExponentialHistogram(exponentialPoints: seq<ExponentialPoint>, exponentialTemporality: Temporality)
    | Summary(summaryPoints: seq<SummaryDataPoint>)

  datatype Metric = Metric(name: string, data: MetricData, description: string, unit: string)
  datatype ScopeMetrics = ScopeMetrics(scope: Scope, metrics: seq<Metric>)
  datatype ResourceMetrics = ResourceMetrics(resource: Resource, scopeMetrics: seq<ScopeMetrics>)

  // ---- logs ----

  datatype Severity = Unset | Trace | Debug | Info | Warn | Error | Fatal {
    function Number(): I32 {
      match this
      case Unset => 0
      case Trace => 1
      case Debug => 5
      case Info => 9
      case Warn => 13
      case Error => 17
      case Fatal => 21
    }
  }

  datatype LogRecord = LogRecord(
    timeUnixNano: U64, body: AnyValue, observedTimeUnixNano: U64, severityNumber: Severity,
    severityText: string, attributes: Attributes, traceId: Option<seq<Byte>>,
    spanId: Option<seq<Byte>>, eventName: string, flags: U32)
  datatype ScopeLogs = ScopeLogs(scope: Scope, logRecords: seq<LogRecord>)
  datatype ResourceLogs = ResourceLogs(resource: Resource, scopeLogs: seq<ScopeLogs>)

  // ---- traces ----

  datatype SpanKind = NoKind | Internal | Server | Client | Producer | Consumer {
    function Number(): I32 {
      match this
      case NoKind => 0
      case Internal => 1
      case Server => 2
      case Client => 3
      case Producer => 4
      case Consumer => 5
    }
  }

  datatype StatusCode = UnsetCode | OkCode | ErrorCode {
    function Number(): I32 {
      match this
      case UnsetCode => 0
      case OkCode => 1
      case ErrorCode => 2
    }
  }

  datatype Status = Status(code: StatusCode, message: string)
  datatype SpanEvent = SpanEvent(timeUnixNano: U64, name: string, attributes: Attributes)
  datatype SpanLink = SpanLink(
    traceId: seq<Byte>, spanId: seq<Byte>, traceState: string, attributes: Attributes, flags: U32)
  datatype Span = Span(
    traceId: seq<Byte>, spanId: seq<Byte>, name: string, startTimeUnixNano: U64, endTimeUnixNano: U64,
    kind: SpanKind, parentSpanId: Option<seq<Byte>>, traceState: string, flags: U32,
    attributes: Attributes, events: seq<SpanEvent>, links: seq<SpanLink>, status: Option<Status>)
  datatype ScopeSpans = ScopeSpans(scope: Scope, spans: seq<Span>)
  datatype ResourceSpans = ResourceSpans(resource: Resource, scopeSpans: seq<ScopeSpans>)
}

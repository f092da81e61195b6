// OTLP/JSON encoding: encoding/primitives.py and encoding/json.py.
module JsonEncoder {
  import opened Wrappers
  import opened Text
  import opened Model
  import opened Json

  type Encoded<+T> = Result<T, TypeError>

  function U64Text(n: int): Json {
    Str(IntToString(n))
  }

  function OptionalU64(n: Option<U64>): Json {
    if n.Some? then U64Text(n.value) else Null
  }

  // `x or None` for an integer field.
  function OrNone(n: int): Json {
    if n != 0 then Int(n) else Null
  }

  function OptionalText(s: Option<string>): Json {
    if s.Some? then Str(s.value) else Null
  }

  function OptionalDouble(d: Option<Float>): Json {
    if d.Some? then Num(d.value) else Null
  }

  // A double of implicit presence: +0.0 is dropped, -0.0 is kept.
  function ImplicitDouble(d: Float): Json {
    if d.Truthy() || d.SignBit() then Num(d) else Null
  }

  // hex_id(x) if x else None
  function OptionalId(id: Option<seq<Byte>>): Json {
    if id.Some? && id.value != [] then Str(HexId(id.value)) else Null
  }

  function U64Texts(ns: seq<U64>): seq<Json> {
    seq(|ns|, i requires 0 <= i < |ns| => U64Text(ns[i]))
  }

  function Doubles(ds: seq<Float>): seq<Json> {
    seq(|ds|, i requires 0 <= i < |ds| => Num(ds[i]))
  }

  // ---- attribute values ----

  function EncodeAnyValue(v: AnyValue): Encoded<Json>
    decreases v, 0
  {
    match v
    case BoolValue(b) => Ok(Obj(map[Key.boolValue := Bool(b)]))
    case IntValue(i) => Ok(Obj(map[Key.intValue := U64Text(i)]))
    case DoubleValue(d) => Ok(Obj(map[Key.doubleValue := Num(d)]))
    case StringValue(s) => Ok(Obj(map[Key.stringValue := Str(s)]))
    case BytesValue(bytes) => Ok(Obj(map[Key.bytesValue := Str(Base64(bytes))]))
    case MapValue(entries) =>
      var kvs :- EncodeAttributes(entries);
      Ok(Obj(map[Key.kvlistValue := Obj(map[Key.values := Arr(kvs)])]))
    case ListValue(values) =>
      var vs :- EncodeValues(values);
      Ok(Obj(map[Key.arrayValue := Obj(map[Key.values := Arr(vs)])]))
    case Unsupported => Raised(UnsupportedAttribute)
  }

  function EncodeValues(vs: seq<AnyValue>): Encoded<seq<Json>>
    decreases vs, 0
  {
    if vs == [] then Ok([]) else
    var head :- EncodeAnyValue(vs[0]);
    var tail :- EncodeValues(vs[1..]);
    Ok([head] + tail)
  }

  function EncodeAttributes(attributes: Attributes): Encoded<seq<Json>>
    decreases attributes, 1
  {
    if attributes == [] then Ok([]) else
    var value :- EncodeAnyValue(attributes[0].value);
    var tail :- EncodeAttributes(attributes[1..]);
    Ok([Obj(map[Key.key := Str(attributes[0].key), Key.value := value])] + tail)
  }

  // ---- envelopes ----

  function EncodeResource(r: Resource): Encoded<Json> {
    var attributes :- EncodeAttributes(r.attributes);
    Ok(Obj(OmitEmpty(map[
      Key.attributes := Arr(attributes),
      Key.droppedAttributesCount := OrNone(r.droppedAttributesCount)])))
  }

  function EncodeScope(s: Scope): Encoded<Json> {
    var attributes :- EncodeAttributes(s.attributes);
    Ok(Obj(OmitEmpty(map[
      Key.name := Str(s.name),
      Key.version := OptionalText(s.version),
      Key.attributes := Arr(attributes)])))
  }

  // ---- metrics ----

  // The `**value_field` of a point: one member of the two, decided by the type.
  function NumberKey(value: Measurement): Key {
    if value.IntMeasurement? then Key.asInt else Key.asDouble
  }

  function NumberJson(value: Measurement): Json
    requires !value.BoolMeasurement?
  {
    if value.IntMeasurement? then U64Text(value.i) else Num(value.d)
  }

  function EncodeExemplar(e: Exemplar): Encoded<Json> {
    if e.value.BoolMeasurement? then Raised(BooleanExemplar) else
    var filtered :- EncodeAttributes(e.filteredAttributes);
    Ok(Obj(OmitEmpty(map[
      Key.filteredAttributes := Arr(filtered),
      Key.timeUnixNano := U64Text(e.timeUnixNano),
      NumberKey(e.value) := NumberJson(e.value),
      Key.spanId := OptionalId(e.spanId),
      Key.traceId := OptionalId(e.traceId)])))
  }

  function EncodeNumberPoint(p: NumberDataPoint): Encoded<Json> {
    if p.value.BoolMeasurement? then Raised(BooleanPoint) else
    var attributes :- EncodeAttributes(p.attributes);
    var exemplars :- TryMap(EncodeExemplar, p.exemplars);
    Ok(Obj(OmitEmpty(map[
      Key.attributes := Arr(attributes),
      Key.startTimeUnixNano := OptionalU64(p.startTimeUnixNano),
      Key.timeUnixNano := U64Text(p.timeUnixNano),
      Key.flags := OrNone(p.flags),
      Key.exemplars := Arr(exemplars),
      NumberKey(p.value) := NumberJson(p.value)])))
  }

  function EncodeHistogramPoint(p: HistogramDataPoint): Encoded<Json> {
    var attributes :- EncodeAttributes(p.attributes);
    var exemplars :- TryMap(EncodeExemplar, p.exemplars);
    Ok(Obj(OmitEmpty(map[
      Key.attributes := Arr(attributes),
      Key.startTimeUnixNano := OptionalU64(p.startTimeUnixNano),
      Key.timeUnixNano := U64Text(p.timeUnixNano),
      Key.count := U64Text(p.count),
      Key.sum := OptionalDouble(p.sum),
      Key.bucketCounts := Arr(U64Texts(p.bucketCounts)),
      Key.explicitBounds := Arr(Doubles(p.explicitBounds)),
      Key.flags := OrNone(p.flags),
      Key.exemplars := Arr(exemplars),
      Key.min := OptionalDouble(p.min),
      Key.max := OptionalDouble(p.max)])))
  }

  function EncodeBuckets(b: Buckets): Json {
    Obj(OmitEmpty(map[
      Key.offset := OrNone(b.offset),
      Key.bucketCounts := Arr(U64Texts(b.bucketCounts))]))
  }

  function EncodeExponentialPoint(p: ExponentialPoint): Encoded<Json> {
    var attributes :- EncodeAttributes(p.attributes);
    var exemplars :- TryMap(EncodeExemplar, p.exemplars);
    Ok(Obj(OmitEmpty(map[
      Key.attributes := Arr(attributes),
      Key.startTimeUnixNano := OptionalU64(p.startTimeUnixNano),
      Key.timeUnixNano := U64Text(p.timeUnixNano),
      Key.count := U64Text(p.count),
      Key.sum := OptionalDouble(p.sum),
      Key.scale := OrNone(p.scale),
      Key.zeroCount := if p.zeroCount != 0 then U64Text(p.zeroCount) else Null,
      Key.positive := EncodeBuckets(p.positive),
      Key.negative := EncodeBuckets(p.negative),
      Key.min := OptionalDouble(p.min),
      Key.max := OptionalDouble(p.max),
      Key.flags := OrNone(p.flags),
      Key.exemplars := Arr(exemplars),
      Key.zeroThreshold := ImplicitDouble(p.zeroThreshold)])))
  }

  function EncodeQuantiles(qs: seq<ValueAtQuantile>): seq<Json> {
    seq(|qs|, i requires 0 <= i < |qs| =>
      Obj(map[Key.quantile := Num(qs[i].quantile), Key.value := Num(qs[i].value)]))
  }

  function EncodeSummaryPoint(p: SummaryDataPoint): Encoded<Json> {
    var attributes :- EncodeAttributes(p.attributes);
    Ok(Obj(OmitEmpty(map[
      Key.attributes := Arr(attributes),
      Key.startTimeUnixNano := OptionalU64(p.startTimeUnixNano),
      Key.timeUnixNano := U64Text(p.timeUnixNano),
      Key.count := U64Text(p.count),
      Key.sum := ImplicitDouble(p.sum),
      Key.quantileValues := Arr(EncodeQuantiles(p.quantileValues)),
      Key.flags := OrNone(p.flags)])))
  }

  // The `**body` of a metric: one member, named after the kind of data.
  function DataKey(d: MetricData): Key {
    match d
    case Gauge(_) => Key.gauge
    case Sum(_, _, _) => Key.sum
    case Histogram(_, _) => Key.histogram
    case ExponentialHistogram(_, _) => Key.exponentialHistogram
    case Summary(_) => Key.summary
  }

  function EncodeMetricData(d: MetricData): Encoded<Json> {
    match d
    case Gauge(ps) =>
      var points :- TryMap(EncodeNumberPoint, ps);
      Ok(Obj(map[Key.dataPoints := Arr(points)]))
    case Sum(ps, temporality, monotonic) =>
      var points :- TryMap(EncodeNumberPoint, ps);
      Ok(Obj(map[
        Key.dataPoints := Arr(points),
        Key.aggregationTemporality := Int(temporality.Number()),
        Key.isMonotonic := Bool(monotonic)]))
    case Histogram(ps, temporality) =>
      var points :- TryMap(EncodeHistogramPoint, ps);
      Ok(Obj(map[
        Key.dataPoints := Arr(points),
        Key.aggregationTemporality := Int(temporality.Number())]))
    case ExponentialHistogram(ps, temporality) =>
      var points :- TryMap(EncodeExponentialPoint, ps);
      Ok(Obj(map[
        Key.dataPoints := Arr(points),
        Key.aggregationTemporality := Int(temporality.Number())]))
    case Summary(ps) =>
      var points :- TryMap(EncodeSummaryPoint, ps);
      Ok(Obj(map[Key.dataPoints := Arr(points)]))
  }

  function EncodeMetric(m: Metric): Encoded<Json> {
    var data :- EncodeMetricData(m.data);
    Ok(Obj(OmitEmpty(map[
      Key.name := Str(m.name),
      Key.description := Str(m.description),
      Key.unit := Str(m.unit),
      DataKey(m.data) := data])))
  }

  function EncodeScopeMetrics(sm: ScopeMetrics): Encoded<Json> {
    var scope :- EncodeScope(sm.scope);
    var metrics :- TryMap(EncodeMetric, sm.metrics);
    Ok(Obj(OmitEmpty(map[Key.scope := scope, Key.metrics := Arr(metrics)])))
  }

  function EncodeOneResourceMetrics(rm: ResourceMetrics): Encoded<Json> {
    var resource :- EncodeResource(rm.resource);
    var scopes :- TryMap(EncodeScopeMetrics, rm.scopeMetrics);
    Ok(Obj(OmitEmpty(map[Key.resource := resource, Key.scopeMetrics := Arr(scopes)])))
  }

  function EncodeMetrics(data: seq<ResourceMetrics>): Encoded<Json> {
    var items :- TryMap(EncodeOneResourceMetrics, data);
    Ok(Obj(map[Key.resourceMetrics := Arr(items)]))
  }

  // ---- logs ----

  function EncodeLogRecord(r: LogRecord): Encoded<Json> {
    var body :- EncodeAnyValue(r.body);
    var attributes :- EncodeAttributes(r.attributes);
    Ok(Obj(OmitEmpty(map[
      Key.timeUnixNano := U64Text(r.timeUnixNano),
      Key.observedTimeUnixNano := U64Text(r.observedTimeUnixNano),
      Key.severityNumber := OrNone(r.severityNumber.Number()),
      Key.severityText := Str(r.severityText),
      Key.body := body,
      Key.attributes := Arr(attributes),
      Key.traceId := OptionalId(r.traceId),
      Key.spanId := OptionalId(r.spanId),
      Key.eventName := Str(r.eventName),
      Key.flags := OrNone(r.flags)])))
  }

  function EncodeScopeLogs(sl: ScopeLogs): Encoded<Json> {
    var scope :- EncodeScope(sl.scope);
    var records :- TryMap(EncodeLogRecord, sl.logRecords);
    Ok(Obj(OmitEmpty(map[Key.scope := scope, Key.logRecords := Arr(records)])))
  }

  function EncodeOneResourceLogs(rl: ResourceLogs): Encoded<Json> {
    var resource :- EncodeResource(rl.resource);
    var scopes :- TryMap(EncodeScopeLogs, rl.scopeLogs);
    Ok(Obj(OmitEmpty(map[Key.resource := resource, Key.scopeLogs := Arr(scopes)])))
  }

  function EncodeLogs(data: seq<ResourceLogs>): Encoded<Json> {
    var items :- TryMap(EncodeOneResourceLogs, data);
    Ok(Obj(map[Key.resourceLogs := Arr(items)]))
  }

  // ---- traces ----

  function EncodeSpanEvent(e: SpanEvent): Encoded<Json> {
    var attributes :- EncodeAttributes(e.attributes);
    Ok(Obj(OmitEmpty(map[
      Key.timeUnixNano := U64Text(e.timeUnixNano),
      Key.name := Str(e.name),
      Key.attributes := Arr(attributes)])))
  }

  function EncodeSpanLink(l: SpanLink): Encoded<Json> {
    var attributes :- EncodeAttributes(l.attributes);
    Ok(Obj(OmitEmpty(map[
      Key.traceId := Str(HexId(l.traceId)),
      Key.spanId := Str(HexId(l.spanId)),
      Key.traceState := Str(l.traceState),
      Key.flags := OrNone(l.flags),
      Key.attributes := Arr(attributes)])))
  }

  function EncodeStatus(s: Option<Status>): Json {
    if s.None? then Null else
    Obj(OmitEmpty(map[Key.code := OrNone(s.value.code.Number()), Key.message := Str(s.value.message)]))
  }

  function EncodeSpan(s: Span): Encoded<Json> {
    var attributes :- EncodeAttributes(s.attributes);
    var events :- TryMap(EncodeSpanEvent, s.events);
    var links :- TryMap(EncodeSpanLink, s.links);
    Ok(Obj(OmitEmpty(map[
      Key.traceId := Str(HexId(s.traceId)),
      Key.spanId := Str(HexId(s.spanId)),
      Key.parentSpanId := OptionalId(s.parentSpanId),
      Key.name := Str(s.name),
      Key.kind := OrNone(s.kind.Number()),
      Key.startTimeUnixNano := U64Text(s.startTimeUnixNano),
      Key.endTimeUnixNano := U64Text(s.endTimeUnixNano),
      Key.traceState := Str(s.traceState),
      Key.flags := OrNone(s.flags),
      Key.attributes := Arr(attributes),
      Key.events := Arr(events),
      Key.links := Arr(links),
      Key.status := EncodeStatus(s.status)])))
  }

  function EncodeScopeSpans(ss: ScopeSpans): Encoded<Json> {
    var scope :- EncodeScope(ss.scope);
    var spans :- TryMap(EncodeSpan, ss.spans);
    Ok(Obj(OmitEmpty(map[Key.scope := scope, Key.spans := Arr(spans)])))
  }

  function EncodeOneResourceSpans(rs: ResourceSpans): Encoded<Json> {
    var resource :- EncodeResource(rs.resource);
    var scopes :- TryMap(EncodeScopeSpans, rs.scopeSpans);
    Ok(Obj(OmitEmpty(map[Key.resource := resource, Key.scopeSpans := Arr(scopes)])))
  }

  function EncodeTraces(data: seq<ResourceSpans>): Encoded<Json> {
    var items :- TryMap(EncodeOneResourceSpans, data);
    Ok(Obj(map[Key.resourceSpans := Arr(items)]))
  }
}

// The receiver's side: the JSON Protobuf Encoding section of the OTLP
// specification, read as a strict parser from documents to messages. A member
// that is missing or null has its default; an unknown member, a value of the
// wrong kind, a number out of range, or two members of one oneof is an error.
// 64-bit integers are decimal strings, 32-bit integers and enums are numbers,
// ids are hex, and every other bytes field is base64. It accepts less than the
// section allows: no 64-bit number, no 32-bit string, no null case of the
// AnyValue or metric data oneof.
module ProtoJson {
  import opened Wrappers
  import opened Text
  import opened Model
  import opened Json
  import P = Proto

  type Parsed<+T> = Option<T>

  // ---- values ----

  function ParseInteger(j: Json, low: int, high: int): Parsed<int>
    requires low <= 0 <= high
    ensures var r := ParseInteger(j, low, high); r.Some? ==> low <= r.value <= high
  {
    var n :- match j
      case Null => Some(0)
      case Int(n) => Some(n)
      case _ => None;
    if low <= n <= high then Some(n) else None
  }

  function ParseDecimal(j: Json, low: int, high: int): Parsed<int>
    requires low <= 0 <= high
    ensures var r := ParseDecimal(j, low, high); r.Some? ==> low <= r.value <= high
  {
    var n :- match j
      case Null => Some(0)
      case Str(s) => ParseInt(s)
      case _ => None;
    if low <= n <= high then Some(n) else None
  }

  function ParseU64(j: Json): Parsed<U64> {
    var n :- ParseDecimal(j, 0, 0xFFFF_FFFF_FFFF_FFFF);
    Some(n)
  }

  function ParseI64(j: Json): Parsed<I64> {
    var n :- ParseDecimal(j, -0x8000_0000_0000_0000, 0x7FFF_FFFF_FFFF_FFFF);
    Some(n)
  }

  function ParseU32(j: Json): Parsed<U32> {
    var n :- ParseInteger(j, 0, 0xFFFF_FFFF);
    Some(n)
  }

  function ParseI32(j: Json): Parsed<I32> {
    var n :- ParseInteger(j, -0x8000_0000, 0x7FFF_FFFF);
    Some(n)
  }

  // Enums of OTLP/JSON are numbers only, never names.
  function ParseEnum(j: Json): Parsed<I32> {
    ParseI32(j)
  }

  function ParseText(j: Json): Parsed<string> {
    match j
    case Null => Some("")
    case Str(s) => Some(s)
    case _ => None
  }

  function ParseBool(j: Json): Parsed<bool> {
    match j
    case Null => Some(false)
    case Bool(b) => Some(b)
    case _ => None
  }

  function ParseDouble(j: Json): Parsed<Float> {
    match j
    case Null => Some(PosZero)
    case Num(d) => Some(d)
    case _ => None
  }

  function ParseOptionalDouble(j: Json): Parsed<Option<Float>> {
    match j
    case Null => Some(None)
    case Num(d) => Some(Some(d))
    case _ => None
  }

  function ParseId(j: Json): Parsed<seq<Byte>> {
    match j
    case Null => Some([])
    case Str(s) => ParseHex(s)
    case _ => None
  }

  // An element of a repeated field is never null.
  function Element<T>(parse: Json -> Parsed<T>): Json -> Parsed<T> {
    (item: Json) => if item.Null? then None else parse(item)
  }

  // A repeated field.
  function ParseList<T>(parse: Json -> Parsed<T>, j: Json): Parsed<seq<T>> {
    match j
    case Null => Some([])
    case Arr(items) => Traverse(Element(parse), items)
    case _ => None
  }

  // A message field.
  function ParseOptional<T>(parse: Json -> Parsed<T>, j: Json): Parsed<Option<T>> {
    if j.Null? then Some(None) else
    var message :- parse(j);
    Some(Some(message))
  }

  // An object whose members are all known.
  function Members(j: Json, known: set<Key>): Parsed<Object> {
    if j.Obj? && j.fields.Keys <= known then Some(j.fields) else None
  }

  // ---- attribute values ----

  // The one member of an object that has exactly one.
  function SoleKey(o: Object): (r: Option<Key>)
    ensures forall k {:trigger Some(k)} :: r == Some(k) <==> o.Keys == {k}
  {
    if exists k :: o.Keys == {k} then
      var k :| o.Keys == {k};
      Some(k)
    else
      None
  }

  // At most one member, which selects the case of the oneof.
  function ParseAnyValue(j: Json): Parsed<P.AnyValue>
    decreases j, 1
  {
    if !j.Obj? then None
    else if j.fields == map[] then Some(P.NoValue)
    else
      var k :- SoleKey(j.fields);
      ParseCase(k, j.fields[k])
  }

  function ParseCase(k: Key, v: Json): Parsed<P.AnyValue>
    decreases v, 2
  {
    match k
    case stringValue => if v.Str? then Some(P.StringValue(v.s)) else None
    case boolValue => if v.Bool? then Some(P.BoolValue(v.b)) else None
    case doubleValue => if v.Num? then Some(P.DoubleValue(v.d)) else None
    case intValue =>
      if v.Null? then None else
      var i :- ParseI64(v);
      Some(P.IntValue(i))
    case bytesValue =>
      if !v.Str? then None else
      var bytes :- ParseBase64(v.s);
      Some(P.BytesValue(bytes))
    case arrayValue =>
      var inner :- Members(v, {Key.values});
      var values := Get(inner, Key.values);
      if values.Null? then Some(P.ArrayValue([]))
      else if !values.Arr? then None
      else
        var vs :- ParseValues(values.items);
        Some(P.ArrayValue(vs))
    case kvlistValue =>
      var inner :- Members(v, {Key.values});
      var values := Get(inner, Key.values);
      if values.Null? then Some(P.KvlistValue([]))
      else if !values.Arr? then None
      else
        var kvs :- ParseKeyValues(values.items);
        Some(P.KvlistValue(kvs))
    case _ => None
  }

  function ParseValues(items: seq<Json>): Parsed<seq<P.AnyValue>>
    decreases items, 0
  {
    if items == [] then Some([]) else
    var head :- ParseAnyValue(items[0]);
    var tail :- ParseValues(items[1..]);
    Some([head] + tail)
  }

  function ParseKeyValues(items: seq<Json>): Parsed<seq<P.KeyValue>>
    decreases items, 0
  {
    if items == [] then Some([]) else
    var o :- Members(items[0], {Key.key, Key.value});
    var key :- ParseText(Get(o, Key.key));
    var value :- if Get(o, Key.value).Null? then Some(None) else
      (var v :- ParseAnyValue(Get(o, Key.value));
       Some(Some(v)));
    var tail :- ParseKeyValues(items[1..]);
    Some([P.KeyValue(key, value)] + tail)
  }

  function ParseAttributes(j: Json): Parsed<seq<P.KeyValue>> {
    match j
    case Null => Some([])
    case Arr(items) => ParseKeyValues(items)
    case _ => None
  }

  // ---- envelopes ----

  function ParseResource(j: Json): Parsed<P.Resource> {
    var o :- Members(j, {Key.attributes, Key.droppedAttributesCount});
    var attributes :- ParseAttributes(Get(o, Key.attributes));
    var dropped :- ParseU32(Get(o, Key.droppedAttributesCount));
    Some(P.Resource(attributes, dropped))
  }

  function ParseScope(j: Json): Parsed<P.Scope> {
    var o :- Members(j, {Key.name, Key.version, Key.attributes});
    var name :- ParseText(Get(o, Key.name));
    var version :- ParseText(Get(o, Key.version));
    var attributes :- ParseAttributes(Get(o, Key.attributes));
    Some(P.Scope(name, version, attributes))
  }

  // ---- metrics ----

  // The value oneof of a point: both members at once is an error.
  function ParseNumber(asInt: Json, asDouble: Json): Parsed<P.Number> {
    if asInt.Null? && asDouble.Null? then Some(P.NoNumber)
    else if asDouble.Null? then
      var i :- ParseI64(asInt);
      Some(P.AsInt(i))
    else if asInt.Null? then
      var d :- ParseDouble(asDouble);
      Some(P.AsDouble(d))
    else None
  }

  function ParseExemplar(j: Json): Parsed<P.Exemplar> {
    var o :- Members(j, {Key.filteredAttributes, Key.timeUnixNano, Key.asInt, Key.asDouble, Key.spanId,
                         Key.traceId});
    var filtered :- ParseAttributes(Get(o, Key.filteredAttributes));
    var time :- ParseU64(Get(o, Key.timeUnixNano));
    var value :- ParseNumber(Get(o, Key.asInt), Get(o, Key.asDouble));
    var spanId :- ParseId(Get(o, Key.spanId));
    var traceId :- ParseId(Get(o, Key.traceId));
    Some(P.Exemplar(filtered, time, value, spanId, traceId))
  }

  function ParseNumberPoint(j: Json): Parsed<P.NumberDataPoint> {
    var o :- Members(j, {Key.attributes, Key.startTimeUnixNano, Key.timeUnixNano, Key.flags,
                         Key.exemplars, Key.asInt, Key.asDouble});
    var attributes :- ParseAttributes(Get(o, Key.attributes));
    var start :- ParseU64(Get(o, Key.startTimeUnixNano));
    var time :- ParseU64(Get(o, Key.timeUnixNano));
    var flags :- ParseU32(Get(o, Key.flags));
    var exemplars :- ParseList(ParseExemplar, Get(o, Key.exemplars));
    var value :- ParseNumber(Get(o, Key.asInt), Get(o, Key.asDouble));
    Some(P.NumberDataPoint(attributes, start, time, flags, exemplars, value))
  }

  function ParseHistogramPoint(j: Json): Parsed<P.HistogramDataPoint> {
    var o :- Members(j, {Key.attributes, Key.startTimeUnixNano, Key.timeUnixNano, Key.count, Key.sum,
                         Key.bucketCounts, Key.explicitBounds, Key.flags, Key.exemplars, Key.min, Key.max});
    var attributes :- ParseAttributes(Get(o, Key.attributes));
    var start :- ParseU64(Get(o, Key.startTimeUnixNano));
    var time :- ParseU64(Get(o, Key.timeUnixNano));
    var count :- ParseU64(Get(o, Key.count));
    var sum :- ParseOptionalDouble(Get(o, Key.sum));
    var counts :- ParseList(ParseU64, Get(o, Key.bucketCounts));
    var bounds :- ParseList(ParseDouble, Get(o, Key.explicitBounds));
    var flags :- ParseU32(Get(o, Key.flags));
    var exemplars :- ParseList(ParseExemplar, Get(o, Key.exemplars));
    var min :- ParseOptionalDouble(Get(o, Key.min));
    var max :- ParseOptionalDouble(Get(o, Key.max));
    Some(P.HistogramDataPoint(attributes, start, time, count, sum, counts, bounds, flags, exemplars, min, max))
  }

  function ParseBuckets(j: Json): Parsed<P.Buckets> {
    var o :- Members(j, {Key.offset, Key.bucketCounts});
    var offset :- ParseI32(Get(o, Key.offset));
    var counts :- ParseList(ParseU64, Get(o, Key.bucketCounts));
    Some(P.Buckets(offset, counts))
  }

  function ParseExponentialPoint(j: Json): Parsed<P.ExponentialPoint> {
    var o :- Members(j, {Key.attributes, Key.startTimeUnixNano, Key.timeUnixNano, Key.count, Key.sum,
                         Key.scale, Key.zeroCount, Key.positive, Key.negative, Key.min, Key.max, Key.flags,
                         Key.exemplars, Key.zeroThreshold});
    var attributes :- ParseAttributes(Get(o, Key.attributes));
    var start :- ParseU64(Get(o, Key.startTimeUnixNano));
    var time :- ParseU64(Get(o, Key.timeUnixNano));
    var count :- ParseU64(Get(o, Key.count));
    var sum :- ParseOptionalDouble(Get(o, Key.sum));
    var scale :- ParseI32(Get(o, Key.scale));
    var zeroCount :- ParseU64(Get(o, Key.zeroCount));
    var positive :- ParseOptional(ParseBuckets, Get(o, Key.positive));
    var negative :- ParseOptional(ParseBuckets, Get(o, Key.negative));
    var min :- ParseOptionalDouble(Get(o, Key.min));
    var max :- ParseOptionalDouble(Get(o, Key.max));
    var flags :- ParseU32(Get(o, Key.flags));
    var exemplars :- ParseList(ParseExemplar, Get(o, Key.exemplars));
    var threshold :- ParseDouble(Get(o, Key.zeroThreshold));
    Some(P.ExponentialPoint(attributes, start, time, count, sum, scale, zeroCount, positive, negative,
                            min, max, flags, exemplars, threshold))
  }

  function ParseQuantile(j: Json): Parsed<P.ValueAtQuantile> {
    var o :- Members(j, {Key.quantile, Key.value});
    var quantile :- ParseDouble(Get(o, Key.quantile));
    var value :- ParseDouble(Get(o, Key.value));
    Some(P.ValueAtQuantile(quantile, value))
  }

  function ParseSummaryPoint(j: Json): Parsed<P.SummaryDataPoint> {
    var o :- Members(j, {Key.attributes, Key.startTimeUnixNano, Key.timeUnixNano, Key.count, Key.sum,
                         Key.quantileValues, Key.flags});
    var attributes :- ParseAttributes(Get(o, Key.attributes));
    var start :- ParseU64(Get(o, Key.startTimeUnixNano));
    var time :- ParseU64(Get(o, Key.timeUnixNano));
    var count :- ParseU64(Get(o, Key.count));
    var sum :- ParseDouble(Get(o, Key.sum));
    var quantiles :- ParseList(ParseQuantile, Get(o, Key.quantileValues));
    var flags :- ParseU32(Get(o, Key.flags));
    Some(P.SummaryDataPoint(attributes, start, time, count, sum, quantiles, flags))
  }

  function ParseGauge(j: Json): Parsed<P.MetricData> {
    var o :- Members(j, {Key.dataPoints});
    var points :- ParseList(ParseNumberPoint, Get(o, Key.dataPoints));
    Some(P.Gauge(points))
  }

  function ParseSum(j: Json): Parsed<P.MetricData> {
    var o :- Members(j, {Key.dataPoints, Key.aggregationTemporality, Key.isMonotonic});
    var points :- ParseList(ParseNumberPoint, Get(o, Key.dataPoints));
    var temporality :- ParseEnum(Get(o, Key.aggregationTemporality));
    var monotonic :- ParseBool(Get(o, Key.isMonotonic));
    Some(P.Sum(points, temporality, monotonic))
  }

  function ParseHistogram(j: Json): Parsed<P.MetricData> {
    var o :- Members(j, {Key.dataPoints, Key.aggregationTemporality});
    var points :- ParseList(ParseHistogramPoint, Get(o, Key.dataPoints));
    var temporality :- ParseEnum(Get(o, Key.aggregationTemporality));
    Some(P.Histogram(points, temporality))
  }

  function ParseExponentialHistogram(j: Json): Parsed<P.MetricData> {
    var o :- Members(j, {Key.dataPoints, Key.aggregationTemporality});
    var points :- ParseList(ParseExponentialPoint, Get(o, Key.dataPoints));
    var temporality :- ParseEnum(Get(o, Key.aggregationTemporality));
    Some(P.ExponentialHistogram(points, temporality))
  }

  function ParseSummary(j: Json): Parsed<P.MetricData> {
    var o :- Members(j, {Key.dataPoints});
    var points :- ParseList(ParseSummaryPoint, Get(o, Key.dataPoints));
    Some(P.Summary(points))
  }

  const DATA_KEYS := {Key.gauge, Key.sum, Key.histogram, Key.exponentialHistogram, Key.summary}

  function ParseDataCase(k: Key, j: Json): Parsed<P.MetricData> {
    match k
    case gauge => ParseGauge(j)
    case sum => ParseSum(j)
    case histogram => ParseHistogram(j)
    case exponentialHistogram => ParseExponentialHistogram(j)
    case summary => ParseSummary(j)
    case _ => None
  }

  // The data oneof of a metric: at most one of the five members.
  function ParseMetricData(o: Object): Parsed<P.MetricData> {
    var data := map k | k in o && k in DATA_KEYS :: o[k];
    if data == map[] then Some(P.NoData)
    else
      var k :- SoleKey(data);
      ParseDataCase(k, data[k])
  }

  function ParseMetric(j: Json): Parsed<P.Metric> {
    var o :- Members(j, {Key.name, Key.description, Key.unit} + DATA_KEYS);
    var name :- ParseText(Get(o, Key.name));
    var description :- ParseText(Get(o, Key.description));
    var unit :- ParseText(Get(o, Key.unit));
    var data :- ParseMetricData(o);
    Some(P.Metric(name, description, unit, data))
  }

  function ParseScopeMetrics(j: Json): Parsed<P.ScopeMetrics> {
    var o :- Members(j, {Key.scope, Key.metrics});
    var scope :- ParseOptional(ParseScope, Get(o, Key.scope));
    var metrics :- ParseList(ParseMetric, Get(o, Key.metrics));
    Some(P.ScopeMetrics(scope, metrics))
  }

  function ParseResourceMetrics(j: Json): Parsed<P.ResourceMetrics> {
    var o :- Members(j, {Key.resource, Key.scopeMetrics});
    var resource :- ParseOptional(ParseResource, Get(o, Key.resource));
    var scopes :- ParseList(ParseScopeMetrics, Get(o, Key.scopeMetrics));
    Some(P.ResourceMetrics(resource, scopes))
  }

  function ParseMetrics(j: Json): Parsed<seq<P.ResourceMetrics>> {
    var o :- Members(j, {Key.resourceMetrics});
    ParseList(ParseResourceMetrics, Get(o, Key.resourceMetrics))
  }

  // ---- logs ----

  function ParseLogRecord(j: Json): Parsed<P.LogRecord> {
    var o :- Members(j, {Key.timeUnixNano, Key.observedTimeUnixNano, Key.severityNumber, Key.severityText,
                         Key.body, Key.attributes, Key.traceId, Key.spanId, Key.eventName, Key.flags});
    var time :- ParseU64(Get(o, Key.timeUnixNano));
    var observed :- ParseU64(Get(o, Key.observedTimeUnixNano));
    var severity :- ParseEnum(Get(o, Key.severityNumber));
    var text :- ParseText(Get(o, Key.severityText));
    var body :- ParseOptional(ParseAnyValue, Get(o, Key.body));
    var attributes :- ParseAttributes(Get(o, Key.attributes));
    var traceId :- ParseId(Get(o, Key.traceId));
    var spanId :- ParseId(Get(o, Key.spanId));
    var event :- ParseText(Get(o, Key.eventName));
    var flags :- ParseU32(Get(o, Key.flags));
    Some(P.LogRecord(time, observed, severity, text, body, attributes, traceId, spanId, event, flags))
  }

  function ParseScopeLogs(j: Json): Parsed<P.ScopeLogs> {
    var o :- Members(j, {Key.scope, Key.logRecords});
    var scope :- ParseOptional(ParseScope, Get(o, Key.scope));
    var records :- ParseList(ParseLogRecord, Get(o, Key.logRecords));
    Some(P.ScopeLogs(scope, records))
  }

  function ParseResourceLogs(j: Json): Parsed<P.ResourceLogs> {
    var o :- Members(j, {Key.resource, Key.scopeLogs});
    var resource :- ParseOptional(ParseResource, Get(o, Key.resource));
    var scopes :- ParseList(ParseScopeLogs, Get(o, Key.scopeLogs));
    Some(P.ResourceLogs(resource, scopes))
  }

  function ParseLogs(j: Json): Parsed<seq<P.ResourceLogs>> {
    var o :- Members(j, {Key.resourceLogs});
    ParseList(ParseResourceLogs, Get(o, Key.resourceLogs))
  }

  // ---- traces ----

  function ParseSpanEvent(j: Json): Parsed<P.SpanEvent> {
    var o :- Members(j, {Key.timeUnixNano, Key.name, Key.attributes});
    var time :- ParseU64(Get(o, Key.timeUnixNano));
    var name :- ParseText(Get(o, Key.name));
    var attributes :- ParseAttributes(Get(o, Key.attributes));
    Some(P.SpanEvent(time, name, attributes))
  }

  function ParseSpanLink(j: Json): Parsed<P.SpanLink> {
    var o :- Members(j, {Key.traceId, Key.spanId, Key.traceState, Key.flags, Key.attributes});
    var traceId :- ParseId(Get(o, Key.traceId));
    var spanId :- ParseId(Get(o, Key.spanId));
    var state :- ParseText(Get(o, Key.traceState));
    var flags :- ParseU32(Get(o, Key.flags));
    var attributes :- ParseAttributes(Get(o, Key.attributes));
    Some(P.SpanLink(traceId, spanId, state, attributes, flags))
  }

  function ParseStatus(j: Json): Parsed<P.Status> {
    var o :- Members(j, {Key.code, Key.message});
    var code :- ParseEnum(Get(o, Key.code));
    var message :- ParseText(Get(o, Key.message));
    Some(P.Status(code, message))
  }

  function ParseSpan(j: Json): Parsed<P.Span> {
    var o :- Members(j, {Key.traceId, Key.spanId, Key.parentSpanId, Key.name, Key.kind,
                         Key.startTimeUnixNano, Key.endTimeUnixNano, Key.traceState, Key.flags,
                         Key.attributes, Key.events, Key.links, Key.status});
    var traceId :- ParseId(Get(o, Key.traceId));
    var spanId :- ParseId(Get(o, Key.spanId));
    var parent :- ParseId(Get(o, Key.parentSpanId));
    var name :- ParseText(Get(o, Key.name));
    var kind :- ParseEnum(Get(o, Key.kind));
    var start :- ParseU64(Get(o, Key.startTimeUnixNano));
    var end :- ParseU64(Get(o, Key.endTimeUnixNano));
    var state :- ParseText(Get(o, Key.traceState));
    var flags :- ParseU32(Get(o, Key.flags));
    var attributes :- ParseAttributes(Get(o, Key.attributes));
    var events :- ParseList(ParseSpanEvent, Get(o, Key.events));
    var links :- ParseList(ParseSpanLink, Get(o, Key.links));
    var status :- ParseOptional(ParseStatus, Get(o, Key.status));
    Some(P.Span(traceId, spanId, parent, name, kind, start, end, state, flags, attributes, events, links,
                status))
  }

  function ParseScopeSpans(j: Json): Parsed<P.ScopeSpans> {
    var o :- Members(j, {Key.scope, Key.spans});
    var scope :- ParseOptional(ParseScope, Get(o, Key.scope));
    var spans :- ParseList(ParseSpan, Get(o, Key.spans));
    Some(P.ScopeSpans(scope, spans))
  }

  function ParseResourceSpans(j: Json): Parsed<P.ResourceSpans> {
    var o :- Members(j, {Key.resource, Key.scopeSpans});
    var resource :- ParseOptional(ParseResource, Get(o, Key.resource));
    var scopes :- ParseList(ParseScopeSpans, Get(o, Key.scopeSpans));
    Some(P.ResourceSpans(resource, scopes))
  }

  function ParseTraces(j: Json): Parsed<seq<P.ResourceSpans>> {
    var o :- Members(j, {Key.resourceSpans});
    ParseList(ParseResourceSpans, Get(o, Key.resourceSpans))
  }
}

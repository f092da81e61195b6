// OTLP/protobuf encoding: encoding/protobuf.py, up to the message object.
// _metric and _span fill a dictionary step by step, and are methods proved
// against a specification function.
module ProtobufEncoder {
  import opened Wrappers
  import opened Model
  import P = Proto

  type Built<+T> = Result<T, TypeError>

  // ---- attribute values ----

  function BuildAnyValue(v: AnyValue): Built<P.AnyValue>
    decreases v, 0
  {
    match v
    case BoolValue(b) => Ok(P.BoolValue(b))
    case IntValue(i) => Ok(P.IntValue(i))
    case DoubleValue(d) => Ok(P.DoubleValue(d))
    case StringValue(s) => Ok(P.StringValue(s))
    case BytesValue(bytes) => Ok(P.BytesValue(bytes))
    case MapValue(entries) =>
      var kvs :- BuildKeyValues(entries);
      Ok(P.KvlistValue(kvs))
    case ListValue(values) =>
      var vs :- BuildValues(values);
      Ok(P.ArrayValue(vs))
    case Unsupported => Raised(UnsupportedAttribute)
  }

  function BuildValues(vs: seq<AnyValue>): Built<seq<P.AnyValue>>
    decreases vs, 0
  {
    if vs == [] then Ok([]) else
    var head :- BuildAnyValue(vs[0]);
    var tail :- BuildValues(vs[1..]);
    Ok([head] + tail)
  }

  function BuildKeyValues(attributes: Attributes): Built<seq<P.KeyValue>>
    decreases attributes, 1
  {
    if attributes == [] then Ok([]) else
    var value :- BuildAnyValue(attributes[0].value);
    var tail :- BuildKeyValues(attributes[1..]);
    Ok([P.KeyValue(attributes[0].key, Some(value))] + tail)
  }

  // ---- envelopes ----

  predicate ResourceIsEmpty(r: Resource) {
    r.attributes == [] && r.droppedAttributesCount == 0
  }

  predicate ScopeIsEmpty(s: Scope) {
    s.name == "" && (s.version.None? || s.version.value == "") && s.attributes == []
  }

  predicate BucketsIsEmpty(b: Buckets) {
    b.offset == 0 && b.bucketCounts == []
  }

  function BuildResource(r: Resource): Built<Option<P.Resource>> {
    if ResourceIsEmpty(r) then Ok(None) else
    var attributes :- BuildKeyValues(r.attributes);
    Ok(Some(P.Resource(attributes, r.droppedAttributesCount)))
  }

  function BuildScope(s: Scope): Built<Option<P.Scope>> {
    if ScopeIsEmpty(s) then Ok(None) else
    var attributes :- BuildKeyValues(s.attributes);
    Ok(Some(P.Scope(s.name, s.version.GetOr(""), attributes)))
  }

  function BuildBuckets(b: Buckets): Option<P.Buckets> {
    if BucketsIsEmpty(b) then None else Some(P.Buckets(b.offset, b.bucketCounts))
  }

  // ---- metrics ----

  function BuildNumber(value: Measurement): P.Number
    requires !value.BoolMeasurement?
  {
    if value.IntMeasurement? then P.AsInt(value.i) else P.AsDouble(value.d)
  }

  function BuildExemplar(e: Exemplar): Built<P.Exemplar> {
    if e.value.BoolMeasurement? then Raised(BooleanExemplar) else
    var filtered :- BuildKeyValues(e.filteredAttributes);
    Ok(P.Exemplar(filtered, e.timeUnixNano, BuildNumber(e.value), e.spanId.GetOr([]), e.traceId.GetOr([])))
  }

  function BuildNumberPoint(p: NumberDataPoint): Built<P.NumberDataPoint> {
    var attributes :- BuildKeyValues(p.attributes);
    var exemplars :- TryMap(BuildExemplar, p.exemplars);
    if p.value.BoolMeasurement? then Raised(BooleanPoint) else
    Ok(P.NumberDataPoint(attributes, p.startTimeUnixNano.GetOr(0), p.timeUnixNano, p.flags, exemplars,
                         BuildNumber(p.value)))
  }

  function BuildHistogramPoint(p: HistogramDataPoint): Built<P.HistogramDataPoint> {
    var attributes :- BuildKeyValues(p.attributes);
    var exemplars :- TryMap(BuildExemplar, p.exemplars);
    Ok(P.HistogramDataPoint(attributes, p.startTimeUnixNano.GetOr(0), p.timeUnixNano, p.count, p.sum,
                            p.bucketCounts, p.explicitBounds, p.flags, exemplars, p.min, p.max))
  }

  function BuildExponentialPoint(p: ExponentialPoint): Built<P.ExponentialPoint> {
    var attributes :- BuildKeyValues(p.attributes);
    var exemplars :- TryMap(BuildExemplar, p.exemplars);
    Ok(P.ExponentialPoint(attributes, p.startTimeUnixNano.GetOr(0), p.timeUnixNano, p.count, p.sum,
                          p.scale, p.zeroCount, BuildBuckets(p.positive), BuildBuckets(p.negative),
                          p.min, p.max, p.flags, exemplars, p.zeroThreshold))
  }

  function BuildQuantiles(qs: seq<ValueAtQuantile>): seq<P.ValueAtQuantile> {
    seq(|qs|, i requires 0 <= i < |qs| => P.ValueAtQuantile(qs[i].quantile, qs[i].value))
  }

  function BuildSummaryPoint(p: SummaryDataPoint): Built<P.SummaryDataPoint> {
    var attributes :- BuildKeyValues(p.attributes);
    Ok(P.SummaryDataPoint(attributes, p.startTimeUnixNano.GetOr(0), p.timeUnixNano, p.count, p.sum,
                          BuildQuantiles(p.quantileValues), p.flags))
  }

  function BuildMetricData(d: MetricData): Built<P.MetricData> {
    match d
    case Gauge(ps) =>
      var points :- TryMap(BuildNumberPoint, ps);
      Ok(P.Gauge(points))
    case Sum(ps, temporality, monotonic) =>
      var points :- TryMap(BuildNumberPoint, ps);
      Ok(P.Sum(points, temporality.Number(), monotonic))
    case Histogram(ps, temporality) =>
      var points :- TryMap(BuildHistogramPoint, ps);
      Ok(P.Histogram(points, temporality.Number()))
    case ExponentialHistogram(ps, temporality) =>
      var points :- TryMap(BuildExponentialPoint, ps);
      Ok(P.ExponentialHistogram(points, temporality.Number()))
    case Summary(ps) =>
      var points :- TryMap(BuildSummaryPoint, ps);
      Ok(P.Summary(points))
  }

  function BuildMetric(m: Metric): Built<P.Metric> {
    var data :- BuildMetricData(m.data);
    Ok(P.Metric(m.name, m.description, m.unit, data))
  }

  // The loop of _metric: points are appended one by one, a bucket side is set
  // only when it carries something, and the first exception ends the export.
  method AppendExponentialPoints(ps: seq<ExponentialPoint>) returns (r: Built<seq<P.ExponentialPoint>>)
    ensures r == TryMap(BuildExponentialPoint, ps)
  {
    var points: seq<P.ExponentialPoint> := [];
    for i := 0 to |ps|
      invariant TryMap(BuildExponentialPoint, ps[..i]) == Ok(points)
    {
      var p := ps[i];
      assert ps == ps[..i] + ([p] + ps[i + 1..]);
      TryMapConcat(BuildExponentialPoint, ps[..i], [p] + ps[i + 1..]);
      TryMapConcat(BuildExponentialPoint, ps[..i], [p]);
      assert ps[..i + 1] == ps[..i] + [p];
      TryMapSingle(BuildExponentialPoint, p);
      var attributes := BuildKeyValues(p.attributes);
      if attributes.Raised? { return Raised(attributes.error); }
      var exemplars := TryMap(BuildExemplar, p.exemplars);
      if exemplars.Raised? { return Raised(exemplars.error); }
      var point := P.ExponentialPoint(
        attributes.value, p.startTimeUnixNano.GetOr(0), p.timeUnixNano, p.count, p.sum, p.scale, p.zeroCount,
        None, None, p.min, p.max, p.flags, exemplars.value, p.zeroThreshold);
      if !BucketsIsEmpty(p.positive) {
        point := point.(positive := Some(P.Buckets(p.positive.offset, p.positive.bucketCounts)));
      }
      if !BucketsIsEmpty(p.negative) {
        point := point.(negative := Some(P.Buckets(p.negative.offset, p.negative.bucketCounts)));
      }
      points := points + [point];
    }
    assert ps[..|ps|] == ps;
    r := Ok(points);
  }

  // _metric: the texts first, then the one data field the kind selects.
  method FillMetric(m: Metric) returns (r: Built<P.Metric>)
    ensures r == BuildMetric(m)
  {
    var fields := P.Metric(m.name, m.description, m.unit, P.NoData);
    match m.data {
      case Gauge(ps) =>
        var points := TryMap(BuildNumberPoint, ps);
        if points.Raised? { return Raised(points.error); }
        fields := fields.(data := P.Gauge(points.value));
      case Sum(ps, temporality, monotonic) =>
        var points := TryMap(BuildNumberPoint, ps);
        if points.Raised? { return Raised(points.error); }
        fields := fields.(data := P.Sum(points.value, temporality.Number(), monotonic));
      case Histogram(ps, temporality) =>
        var points := TryMap(BuildHistogramPoint, ps);
        if points.Raised? { return Raised(points.error); }
        fields := fields.(data := P.Histogram(points.value, temporality.Number()));
      case ExponentialHistogram(ps, temporality) =>
        var points := AppendExponentialPoints(ps);
        if points.Raised? { return Raised(points.error); }
        fields := fields.(data := P.ExponentialHistogram(points.value, temporality.Number()));
      case Summary(ps) =>
        var points := TryMap(BuildSummaryPoint, ps);
        if points.Raised? { return Raised(points.error); }
        fields := fields.(data := P.Summary(points.value));
    }
    r := Ok(fields);
  }

  function BuildScopeMetrics(sm: ScopeMetrics): Built<P.ScopeMetrics> {
    var scope :- BuildScope(sm.scope);
    var metrics :- TryMap(BuildMetric, sm.metrics);
    Ok(P.ScopeMetrics(scope, metrics))
  }

  function BuildResourceMetrics(rm: ResourceMetrics): Built<P.ResourceMetrics> {
    var resource :- BuildResource(rm.resource);
    var scopes :- TryMap(BuildScopeMetrics, rm.scopeMetrics);
    Ok(P.ResourceMetrics(resource, scopes))
  }

  function BuildMetrics(data: seq<ResourceMetrics>): Built<seq<P.ResourceMetrics>> {
    TryMap(BuildResourceMetrics, data)
  }

  // ---- logs ----

  function BuildLogRecord(r: LogRecord): Built<P.LogRecord> {
    var body :- BuildAnyValue(r.body);
    var attributes :- BuildKeyValues(r.attributes);
    Ok(P.LogRecord(r.timeUnixNano, r.observedTimeUnixNano, r.severityNumber.Number(), r.severityText,
                   Some(body), attributes, r.traceId.GetOr([]), r.spanId.GetOr([]), r.eventName, r.flags))
  }

  function BuildScopeLogs(sl: ScopeLogs): Built<P.ScopeLogs> {
    var scope :- BuildScope(sl.scope);
    var records :- TryMap(BuildLogRecord, sl.logRecords);
    Ok(P.ScopeLogs(scope, records))
  }

  function BuildResourceLogs(rl: ResourceLogs): Built<P.ResourceLogs> {
    var resource :- BuildResource(rl.resource);
    var scopes :- TryMap(BuildScopeLogs, rl.scopeLogs);
    Ok(P.ResourceLogs(resource, scopes))
  }

  function BuildLogs(data: seq<ResourceLogs>): Built<seq<P.ResourceLogs>> {
    TryMap(BuildResourceLogs, data)
  }

  // ---- traces ----

  function BuildSpanEvent(e: SpanEvent): Built<P.SpanEvent> {
    var attributes :- BuildKeyValues(e.attributes);
    Ok(P.SpanEvent(e.timeUnixNano, e.name, attributes))
  }

  function BuildSpanLink(l: SpanLink): Built<P.SpanLink> {
    var attributes :- BuildKeyValues(l.attributes);
    Ok(P.SpanLink(l.traceId, l.spanId, l.traceState, attributes, l.flags))
  }

  // Present only when it carries a code or a message.
  function BuildStatus(s: Option<Status>): Option<P.Status> {
    if s.Some? && (!s.value.code.UnsetCode? || s.value.message != "")
    then Some(P.Status(s.value.code.Number(), s.value.message))
    else None
  }

  function BuildSpan(s: Span): Built<P.Span> {
    var attributes :- BuildKeyValues(s.attributes);
    var events :- TryMap(BuildSpanEvent, s.events);
    var links :- TryMap(BuildSpanLink, s.links);
    Ok(P.Span(s.traceId, s.spanId, s.parentSpanId.GetOr([]), s.name, s.kind.Number(),
              s.startTimeUnixNano, s.endTimeUnixNano, s.traceState, s.flags, attributes, events, links,
              BuildStatus(s.status)))
  }

  // _span: every field first, the status only when it carries something.
  method FillSpan(s: Span) returns (r: Built<P.Span>)
    ensures r == BuildSpan(s)
  {
    var attributes := BuildKeyValues(s.attributes);
    if attributes.Raised? { return Raised(attributes.error); }
    var events := TryMap(BuildSpanEvent, s.events);
    if events.Raised? { return Raised(events.error); }
    var links := TryMap(BuildSpanLink, s.links);
    if links.Raised? { return Raised(links.error); }
    var fields := P.Span(s.traceId, s.spanId, s.parentSpanId.GetOr([]), s.name, s.kind.Number(),
                         s.startTimeUnixNano, s.endTimeUnixNano, s.traceState, s.flags, attributes.value,
                         events.value, links.value, None);
    if s.status.Some? {
      var status := s.status.value;
      if status.code != UnsetCode || status.message != "" {
        fields := fields.(status := Some(P.Status(status.code.Number(), status.message)));
      }
    }
    r := Ok(fields);
  }

  function BuildScopeSpans(ss: ScopeSpans): Built<P.ScopeSpans> {
    var scope :- BuildScope(ss.scope);
    var spans :- TryMap(BuildSpan, ss.spans);
    Ok(P.ScopeSpans(scope, spans))
  }

  function BuildResourceSpans(rs: ResourceSpans): Built<P.ResourceSpans> {
    var resource :- BuildResource(rs.resource);
    var scopes :- TryMap(BuildScopeSpans, rs.scopeSpans);
    Ok(P.ResourceSpans(resource, scopes))
  }

  function BuildTraces(data: seq<ResourceSpans>): Built<seq<P.ResourceSpans>> {
    TryMap(BuildResourceSpans, data)
  }
}

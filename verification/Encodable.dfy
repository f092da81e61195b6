// Which model trees can be encoded at all: no boolean where a measurement
// belongs, and no attribute value outside the supported types.
module Encodable {
  import opened Model

  predicate EncodableValue(v: AnyValue) {
    match v
    case ListValue(values) => forall e | e in values :: EncodableValue(e)
    case MapValue(entries) => forall a | a in entries :: EncodableValue(a.value)
    case _ => !v.Unsupported?
  }

  predicate EncodableAttributes(attributes: Attributes) {
    forall a | a in attributes :: EncodableValue(a.value)
  }

  predicate EncodableExemplar(e: Exemplar) {
    !e.value.BoolMeasurement? && EncodableAttributes(e.filteredAttributes)
  }

  predicate EncodableExemplars(es: seq<Exemplar>) {
    forall e | e in es :: EncodableExemplar(e)
  }

  predicate EncodableNumberPoint(p: NumberDataPoint) {
    !p.value.BoolMeasurement? && EncodableAttributes(p.attributes) && EncodableExemplars(p.exemplars)
  }

  predicate EncodableHistogramPoint(p: HistogramDataPoint) {
    EncodableAttributes(p.attributes) && EncodableExemplars(p.exemplars)
  }

  predicate EncodableExponentialPoint(p: ExponentialPoint) {
    EncodableAttributes(p.attributes) && EncodableExemplars(p.exemplars)
  }

  predicate EncodableSummaryPoint(p: SummaryDataPoint) {
    EncodableAttributes(p.attributes)
  }

  predicate EncodableMetricData(d: MetricData) {
    match d
    case Gauge(ps) => forall p | p in ps :: EncodableNumberPoint(p)
    case Sum(ps, _, _) => forall p | p in ps :: EncodableNumberPoint(p)
    case Histogram(ps, _) => forall p | p in ps :: EncodableHistogramPoint(p)
    case ExponentialHistogram(ps, _) => forall p | p in ps :: EncodableExponentialPoint(p)
    case Summary(ps) => forall p | p in ps :: EncodableSummaryPoint(p)
  }

  predicate EncodableMetric(m: Metric) {
    EncodableMetricData(m.data)
  }

  predicate EncodableScopeMetrics(sm: ScopeMetrics) {
    EncodableAttributes(sm.scope.attributes) && forall m | m in sm.metrics :: EncodableMetric(m)
  }

  predicate EncodableResourceMetrics(rm: ResourceMetrics) {
    EncodableAttributes(rm.resource.attributes) && forall sm | sm in rm.scopeMetrics :: EncodableScopeMetrics(sm)
  }

  predicate EncodableLogRecord(r: LogRecord) {
    EncodableValue(r.body) && EncodableAttributes(r.attributes)
  }

  predicate EncodableScopeLogs(sl: ScopeLogs) {
    EncodableAttributes(sl.scope.attributes) && forall r | r in sl.logRecords :: EncodableLogRecord(r)
  }

  predicate EncodableResourceLogs(rl: ResourceLogs) {
    EncodableAttributes(rl.resource.attributes) && forall sl | sl in rl.scopeLogs :: EncodableScopeLogs(sl)
  }

  predicate EncodableSpanEvent(e: SpanEvent) {
    EncodableAttributes(e.attributes)
  }

  predicate EncodableSpanLink(l: SpanLink) {
    EncodableAttributes(l.attributes)
  }

  predicate EncodableSpan(s: Span) {
    && EncodableAttributes(s.attributes)
    && (forall e | e in s.events :: EncodableSpanEvent(e))
    && (forall l | l in s.links :: EncodableSpanLink(l))
  }

  predicate EncodableScopeSpans(ss: ScopeSpans) {
    EncodableAttributes(ss.scope.attributes) && forall s | s in ss.spans :: EncodableSpan(s)
  }

  predicate EncodableResourceSpans(rs: ResourceSpans) {
    EncodableAttributes(rs.resource.attributes) && forall ss | ss in rs.scopeSpans :: EncodableScopeSpans(ss)
  }
}

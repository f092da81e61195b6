// The consumer's side of the wire: from messages back to the model tree they
// were built from. Enum numbers are those of the OTLP proto files. What a
// message cannot tell apart - an absent and a zero start time, an absent and
// an empty version or id, an absent and a default status - is read as the
// present one, and nothing else is lost.
module Restore {
  import opened Wrappers
  import opened Text
  import opened Model
  import opened Json
  import opened JsonEncoder
  import opened ProtobufEncoder
  import opened ProtoJson
  import opened Encodable
  import opened Agreement
  import opened Decoding
  import opened MetricsAgreement
  import opened LogsAgreement
  import opened TracesAgreement

  // ---- enums ----

  // AggregationTemporality: DELTA = 1, CUMULATIVE = 2.
  function ReadTemporality(n: int): Option<Temporality> {
    match n
    case 0 => Some(Unspecified)
    case 1 => Some(Delta)
    case 2 => Some(Cumulative)
    case _ => None
  }

  // SeverityNumber, the first of each range.
  function ReadSeverity(n: int): Option<Severity> {
    match n
    case 0 => Some(Unset)
    case 1 => Some(Trace)
    case 5 => Some(Debug)
    case 9 => Some(Info)
    case 13 => Some(Warn)
    case 17 => Some(Severity.Error)
    case 21 => Some(Fatal)
    case _ => None
  }

  // Span.SpanKind
  function ReadKind(n: int): Option<SpanKind> {
    match n
    case 0 => Some(NoKind)
    case 1 => Some(Internal)
    case 2 => Some(Server)
    case 3 => Some(Client)
    case 4 => Some(Producer)
    case 5 => Some(Consumer)
    case _ => None
  }

  // Status.StatusCode: OK = 1, ERROR = 2.
  function ReadCode(n: int): Option<StatusCode> {
    match n
    case 0 => Some(UnsetCode)
    case 1 => Some(OkCode)
    case 2 => Some(ErrorCode)
    case _ => None
  }

  // ---- messages ----

  function ReadResource(m: Option<P.Resource>): Option<Resource> {
    if m.None? then Some(Resource([], 0)) else
    var attributes :- RestoreAttributes(m.value.attributes);
    Some(Resource(attributes, m.value.droppedAttributesCount))
  }

  function ReadScope(m: Option<P.Scope>): Option<Scope> {
    if m.None? then Some(Scope("", Some(""), [])) else
    var attributes :- RestoreAttributes(m.value.attributes);
    Some(Scope(m.value.name, Some(m.value.version), attributes))
  }

  function ReadNumber(n: P.Number): Option<Measurement> {
    match n
    case NoNumber => None
    case AsInt(i) => Some(IntMeasurement(i))
    case AsDouble(d) => Some(FloatMeasurement(d))
  }

  function ReadExemplar(m: P.Exemplar): Option<Exemplar> {
    var filtered :- RestoreAttributes(m.filteredAttributes);
    var value :- ReadNumber(m.value);
    Some(Exemplar(filtered, m.timeUnixNano, value, Some(m.spanId), Some(m.traceId)))
  }

  function ReadNumberPoint(m: P.NumberDataPoint): Option<NumberDataPoint> {
    var attributes :- RestoreAttributes(m.attributes);
    var exemplars :- Traverse(ReadExemplar, m.exemplars);
    var value :- ReadNumber(m.value);
    Some(NumberDataPoint(m.timeUnixNano, value, attributes, Some(m.startTimeUnixNano), exemplars, m.flags))
  }

  function ReadHistogramPoint(m: P.HistogramDataPoint): Option<HistogramDataPoint> {
    var attributes :- RestoreAttributes(m.attributes);
    var exemplars :- Traverse(ReadExemplar, m.exemplars);
    Some(HistogramDataPoint(m.timeUnixNano, m.count, m.bucketCounts, m.explicitBounds, m.sum, attributes,
                            Some(m.startTimeUnixNano), exemplars, m.flags, m.min, m.max))
  }

  function ReadBuckets(m: Option<P.Buckets>): Buckets {
    if m.None? then Buckets(0, []) else Buckets(m.value.offset, m.value.bucketCounts)
  }

  function ReadExponentialPoint(m: P.ExponentialPoint): Option<ExponentialPoint> {
    var attributes :- RestoreAttributes(m.attributes);
    var exemplars :- Traverse(ReadExemplar, m.exemplars);
    Some(ExponentialPoint(m.timeUnixNano, m.count, m.scale, m.zeroCount, ReadBuckets(m.positive),
                          ReadBuckets(m.negative), m.sum, m.min, m.max, attributes, Some(m.startTimeUnixNano),
                          m.flags, exemplars, m.zeroThreshold))
  }

  function ReadQuantile(m: P.ValueAtQuantile): Option<ValueAtQuantile> {
    Some(ValueAtQuantile(m.quantile, m.value))
  }

  function ReadSummaryPoint(m: P.SummaryDataPoint): Option<SummaryDataPoint> {
    var attributes :- RestoreAttributes(m.attributes);
    var quantiles :- Traverse(ReadQuantile, m.quantileValues);
    Some(SummaryDataPoint(m.timeUnixNano, m.count, m.sum, quantiles, attributes, Some(m.startTimeUnixNano),
                          m.flags))
  }

  function ReadMetricData(m: P.MetricData): Option<MetricData> {
    match m
    case NoData => None
    case Gauge(points) =>
      var ps :- Traverse(ReadNumberPoint, points);
      Some(Gauge(ps))
    case Sum(points, temporality, monotonic) =>
      var ps :- Traverse(ReadNumberPoint, points);
      var t :- ReadTemporality(temporality);
      Some(Sum(ps, t, monotonic))
    case Histogram(points, temporality) =>
      var ps :- Traverse(ReadHistogramPoint, points);
      var t :- ReadTemporality(temporality);
      Some(Histogram(ps, t))
    case ExponentialHistogram(points, temporality) =>
      var ps :- Traverse(ReadExponentialPoint, points);
      var t :- ReadTemporality(temporality);
      Some(ExponentialHistogram(ps, t))
    case Summary(points) =>
      var ps :- Traverse(ReadSummaryPoint, points);
      Some(Summary(ps))
  }

  function ReadMetric(m: P.Metric): Option<Metric> {
    var data :- ReadMetricData(m.data);
    Some(Metric(m.name, data, m.description, m.unit))
  }

  function ReadScopeMetrics(m: P.ScopeMetrics): Option<ScopeMetrics> {
    var scope :- ReadScope(m.scope);
    var metrics :- Traverse(ReadMetric, m.metrics);
    Some(ScopeMetrics(scope, metrics))
  }

  function ReadResourceMetrics(m: P.ResourceMetrics): Option<ResourceMetrics> {
    var resource :- ReadResource(m.resource);
    var scopes :- Traverse(ReadScopeMetrics, m.scopeMetrics);
    Some(ResourceMetrics(resource, scopes))
  }

  function ReadLogRecord(m: P.LogRecord): Option<LogRecord> {
    if m.body.None? then None else
    var body :- RestoreValue(m.body.value);
    var severity :- ReadSeverity(m.severityNumber);
    var attributes :- RestoreAttributes(m.attributes);
    Some(LogRecord(m.timeUnixNano, body, m.observedTimeUnixNano, severity, m.severityText, attributes,
                   Some(m.traceId), Some(m.spanId), m.eventName, m.flags))
  }

  function ReadScopeLogs(m: P.ScopeLogs): Option<ScopeLogs> {
    var scope :- ReadScope(m.scope);
    var records :- Traverse(ReadLogRecord, m.logRecords);
    Some(ScopeLogs(scope, records))
  }

  function ReadResourceLogs(m: P.ResourceLogs): Option<ResourceLogs> {
    var resource :- ReadResource(m.resource);
    var scopes :- Traverse(ReadScopeLogs, m.scopeLogs);
    Some(ResourceLogs(resource, scopes))
  }

  function ReadSpanEvent(m: P.SpanEvent): Option<SpanEvent> {
    var attributes :- RestoreAttributes(m.attributes);
    Some(SpanEvent(m.timeUnixNano, m.name, attributes))
  }

  function ReadSpanLink(m: P.SpanLink): Option<SpanLink> {
    var attributes :- RestoreAttributes(m.attributes);
    Some(SpanLink(m.traceId, m.spanId, m.traceState, attributes, m.flags))
  }

  function ReadStatus(m: Option<P.Status>): Option<Status> {
    if m.None? then Some(Status(UnsetCode, "")) else
    var code :- ReadCode(m.value.code);
    Some(Status(code, m.value.message))
  }

  function ReadSpan(m: P.Span): Option<Span> {
    var kind :- ReadKind(m.kind);
    var attributes :- RestoreAttributes(m.attributes);
    var events :- Traverse(ReadSpanEvent, m.events);
    var links :- Traverse(ReadSpanLink, m.links);
    var status :- ReadStatus(m.status);
    Some(Span(m.traceId, m.spanId, m.name, m.startTimeUnixNano, m.endTimeUnixNano, kind, Some(m.parentSpanId),
              m.traceState, m.flags, attributes, events, links, Some(status)))
  }

  function ReadScopeSpans(m: P.ScopeSpans): Option<ScopeSpans> {
    var scope :- ReadScope(m.scope);
    var spans :- Traverse(ReadSpan, m.spans);
    Some(ScopeSpans(scope, spans))
  }

  function ReadResourceSpans(m: P.ResourceSpans): Option<ResourceSpans> {
    var resource :- ReadResource(m.resource);
    var scopes :- Traverse(ReadScopeSpans, m.scopeSpans);
    Some(ResourceSpans(resource, scopes))
  }

  // ---- what the wire identifies ----

  function Each<A, B>(f: A -> B, xs: seq<A>): seq<B> {
    if xs == [] then [] else [f(xs[0])] + Each(f, xs[1..])
  }

  function Present<T>(o: Option<T>, default: T): Option<T> {
    Some(o.GetOr(default))
  }

  function PlainScope(s: Scope): Scope {
    s.(version := Present(s.version, ""))
  }

  function PlainExemplar(e: Exemplar): Exemplar {
    e.(spanId := Present(e.spanId, []), traceId := Present(e.traceId, []))
  }

  function PlainNumberPoint(p: NumberDataPoint): NumberDataPoint {
    p.(startTimeUnixNano := Present(p.startTimeUnixNano, 0), exemplars := Each(PlainExemplar, p.exemplars))
  }

  function PlainHistogramPoint(p: HistogramDataPoint): HistogramDataPoint {
    p.(startTimeUnixNano := Present(p.startTimeUnixNano, 0), exemplars := Each(PlainExemplar, p.exemplars))
  }

  function PlainExponentialPoint(p: ExponentialPoint): ExponentialPoint {
    p.(startTimeUnixNano := Present(p.startTimeUnixNano, 0), exemplars := Each(PlainExemplar, p.exemplars))
  }

  function PlainSummaryPoint(p: SummaryDataPoint): SummaryDataPoint {
    p.(startTimeUnixNano := Present(p.startTimeUnixNano, 0))
  }

  function PlainMetricData(d: MetricData): MetricData {
    match d
    case Gauge(ps) => Gauge(Each(PlainNumberPoint, ps))
    case Sum(ps, t, monotonic) => Sum(Each(PlainNumberPoint, ps), t, monotonic)
    case Histogram(ps, t) => Histogram(Each(PlainHistogramPoint, ps), t)
    case ExponentialHistogram(ps, t) => ExponentialHistogram(Each(PlainExponentialPoint, ps), t)
    case Summary(ps) => Summary(Each(PlainSummaryPoint, ps))
  }

  function PlainMetric(m: Metric): Metric {
    m.(data := PlainMetricData(m.data))
  }

  function PlainScopeMetrics(x: ScopeMetrics): ScopeMetrics {
    ScopeMetrics(PlainScope(x.scope), Each(PlainMetric, x.metrics))
  }

  function PlainResourceMetrics(x: ResourceMetrics): ResourceMetrics {
    x.(scopeMetrics := Each(PlainScopeMetrics, x.scopeMetrics))
  }

  function PlainLogRecord(r: LogRecord): LogRecord {
    r.(traceId := Present(r.traceId, []), spanId := Present(r.spanId, []))
  }

  function PlainScopeLogs(x: ScopeLogs): ScopeLogs {
    ScopeLogs(PlainScope(x.scope), Each(PlainLogRecord, x.logRecords))
  }

  function PlainResourceLogs(x: ResourceLogs): ResourceLogs {
    x.(scopeLogs := Each(PlainScopeLogs, x.scopeLogs))
  }

  function PlainSpan(s: Span): Span {
    s.(parentSpanId := Present(s.parentSpanId, []), status := Present(s.status, Status(UnsetCode, "")))
  }

  function PlainScopeSpans(x: ScopeSpans): ScopeSpans {
    ScopeSpans(PlainScope(x.scope), Each(PlainSpan, x.spans))
  }

  function PlainResourceSpans(x: ResourceSpans): ResourceSpans {
    x.(scopeSpans := Each(PlainScopeSpans, x.scopeSpans))
  }

  // ---- reading gives back what was built ----

  // For a tree that can be encoded, the message is built and read as the tree.
  ghost predicate Reads<M, A>(fine: bool, built: Built<M>, read: M -> Option<A>, x: A) {
    fine ==> built.Ok? && read(built.value) == Some(x)
  }

  lemma {:induction false} ListReads<A, M>(fine: A -> bool, build: A -> Built<M>, read: M -> Option<A>,
                                           plain: A -> A, xs: seq<A>)
    requires forall x | x in xs :: Reads(fine(x), build(x), read, plain(x))
    requires forall x | x in xs :: fine(x)
    ensures TryMap(build, xs).Ok? && Traverse(read, TryMap(build, xs).value) == Some(Each(plain, xs))
  {
    if xs != [] {
      assert xs[0] in xs && Reads(fine(xs[0]), build(xs[0]), read, plain(xs[0]));
      assert forall x | x in xs[1..] :: x in xs;
      ListReads(fine, build, read, plain, xs[1..]);
      assert TryMap(build, xs).value[1..] == TryMap(build, xs[1..]).value;
    }
  }

  lemma AttributesRead(attributes: Attributes)
    requires EncodableAttributes(attributes)
    ensures BuildKeyValues(attributes).Ok?
    ensures RestoreAttributes(BuildKeyValues(attributes).value) == Some(attributes)
  {
    KeyValuesAgree(attributes);
    AttributesRestored(attributes);
  }

  lemma ResourceReads(r: Resource)
    ensures Reads(EncodableAttributes(r.attributes), BuildResource(r), ReadResource, r)
  {
    hide EncodableAttributes, BuildKeyValues, RestoreAttributes;
    if EncodableAttributes(r.attributes) { AttributesRead(r.attributes); }
  }

  lemma ScopeReads(s: Scope)
    ensures Reads(EncodableAttributes(s.attributes), BuildScope(s), ReadScope, PlainScope(s))
  {
    hide EncodableAttributes, BuildKeyValues, RestoreAttributes;
    if EncodableAttributes(s.attributes) { AttributesRead(s.attributes); }
  }

  lemma ExemplarReads(e: Exemplar)
    ensures Reads(EncodableExemplar(e), BuildExemplar(e), ReadExemplar, PlainExemplar(e))
  {
    hide EncodableAttributes, BuildKeyValues, RestoreAttributes;
    if EncodableExemplar(e) { AttributesRead(e.filteredAttributes); }
  }

  lemma ExemplarsRead(es: seq<Exemplar>)
    requires EncodableExemplars(es)
    ensures TryMap(BuildExemplar, es).Ok?
    ensures Traverse(ReadExemplar, TryMap(BuildExemplar, es).value) == Some(Each(PlainExemplar, es))
  {
    hide EncodableExemplar, BuildExemplar, ReadExemplar, PlainExemplar;
    forall e | e in es ensures Reads(EncodableExemplar(e), BuildExemplar(e), ReadExemplar, PlainExemplar(e)) {
      ExemplarReads(e);
    }
    ListReads(EncodableExemplar, BuildExemplar, ReadExemplar, PlainExemplar, es);
  }

  lemma NumberPointReads(p: NumberDataPoint)
    ensures Reads(EncodableNumberPoint(p), BuildNumberPoint(p), ReadNumberPoint, PlainNumberPoint(p))
  {
    hide EncodableAttributes, BuildKeyValues, RestoreAttributes, EncodableExemplars, TryMap, Traverse, Each;
    if EncodableNumberPoint(p) {
      AttributesRead(p.attributes);
      ExemplarsRead(p.exemplars);
    }
  }

  lemma HistogramPointReads(p: HistogramDataPoint)
    ensures Reads(EncodableHistogramPoint(p), BuildHistogramPoint(p), ReadHistogramPoint, PlainHistogramPoint(p))
  {
    hide EncodableAttributes, BuildKeyValues, RestoreAttributes, EncodableExemplars, TryMap, Traverse, Each;
    if EncodableHistogramPoint(p) {
      AttributesRead(p.attributes);
      ExemplarsRead(p.exemplars);
    }
  }

  lemma ExponentialPointReads(p: ExponentialPoint)
    ensures Reads(EncodableExponentialPoint(p), BuildExponentialPoint(p), ReadExponentialPoint,
                  PlainExponentialPoint(p))
  {
    hide EncodableAttributes, BuildKeyValues, RestoreAttributes, EncodableExemplars, TryMap, Traverse, Each;
    if EncodableExponentialPoint(p) {
      AttributesRead(p.attributes);
      ExemplarsRead(p.exemplars);
    }
  }

  lemma {:induction false} QuantilesRead(qs: seq<ValueAtQuantile>)
    ensures Traverse(ReadQuantile, BuildQuantiles(qs)) == Some(qs)
  {
    var ms := BuildQuantiles(qs);
    if qs == [] {
      assert ms == [];
    } else {
      assert ms[1..] == BuildQuantiles(qs[1..]);
      QuantilesRead(qs[1..]);
      assert ReadQuantile(ms[0]) == Some(qs[0]);
      assert [qs[0]] + qs[1..] == qs;
    }
  }

  lemma SummaryPointReads(p: SummaryDataPoint)
    ensures Reads(EncodableSummaryPoint(p), BuildSummaryPoint(p), ReadSummaryPoint, PlainSummaryPoint(p))
  {
    hide EncodableAttributes, BuildKeyValues, RestoreAttributes, BuildQuantiles, Traverse;
    if EncodableSummaryPoint(p) {
      AttributesRead(p.attributes);
      QuantilesRead(p.quantileValues);
    }
  }

  lemma NumberPointsRead(ps: seq<NumberDataPoint>)
    requires forall p | p in ps :: EncodableNumberPoint(p)
    ensures TryMap(BuildNumberPoint, ps).Ok?
    ensures Traverse(ReadNumberPoint, TryMap(BuildNumberPoint, ps).value) == Some(Each(PlainNumberPoint, ps))
  {
    hide EncodableNumberPoint, BuildNumberPoint, ReadNumberPoint, PlainNumberPoint;
    forall p | p in ps
      ensures Reads(EncodableNumberPoint(p), BuildNumberPoint(p), ReadNumberPoint, PlainNumberPoint(p))
    {
      NumberPointReads(p);
    }
    ListReads(EncodableNumberPoint, BuildNumberPoint, ReadNumberPoint, PlainNumberPoint, ps);
  }

  lemma HistogramPointsRead(ps: seq<HistogramDataPoint>)
    requires forall p | p in ps :: EncodableHistogramPoint(p)
    ensures TryMap(BuildHistogramPoint, ps).Ok?
    ensures Traverse(ReadHistogramPoint, TryMap(BuildHistogramPoint, ps).value)
         == Some(Each(PlainHistogramPoint, ps))
  {
    hide EncodableHistogramPoint, BuildHistogramPoint, ReadHistogramPoint, PlainHistogramPoint;
    forall p | p in ps
      ensures Reads(EncodableHistogramPoint(p), BuildHistogramPoint(p), ReadHistogramPoint, PlainHistogramPoint(p))
    {
      HistogramPointReads(p);
    }
    ListReads(EncodableHistogramPoint, BuildHistogramPoint, ReadHistogramPoint, PlainHistogramPoint, ps);
  }

  lemma ExponentialPointsRead(ps: seq<ExponentialPoint>)
    requires forall p | p in ps :: EncodableExponentialPoint(p)
    ensures TryMap(BuildExponentialPoint, ps).Ok?
    ensures Traverse(ReadExponentialPoint, TryMap(BuildExponentialPoint, ps).value)
         == Some(Each(PlainExponentialPoint, ps))
  {
    hide EncodableExponentialPoint, BuildExponentialPoint, ReadExponentialPoint, PlainExponentialPoint;
    forall p | p in ps
      ensures Reads(EncodableExponentialPoint(p), BuildExponentialPoint(p), ReadExponentialPoint,
                    PlainExponentialPoint(p))
    {
      ExponentialPointReads(p);
    }
    ListReads(EncodableExponentialPoint, BuildExponentialPoint, ReadExponentialPoint, PlainExponentialPoint, ps);
  }

  lemma SummaryPointsRead(ps: seq<SummaryDataPoint>)
    requires forall p | p in ps :: EncodableSummaryPoint(p)
    ensures TryMap(BuildSummaryPoint, ps).Ok?
    ensures Traverse(ReadSummaryPoint, TryMap(BuildSummaryPoint, ps).value) == Some(Each(PlainSummaryPoint, ps))
  {
    hide EncodableSummaryPoint, BuildSummaryPoint, ReadSummaryPoint, PlainSummaryPoint;
    forall p | p in ps
      ensures Reads(EncodableSummaryPoint(p), BuildSummaryPoint(p), ReadSummaryPoint, PlainSummaryPoint(p))
    {
      SummaryPointReads(p);
    }
    ListReads(EncodableSummaryPoint, BuildSummaryPoint, ReadSummaryPoint, PlainSummaryPoint, ps);
  }

  lemma MetricReads(m: Metric)
    ensures Reads(EncodableMetric(m), BuildMetric(m), ReadMetric, PlainMetric(m))
  {
    hide TryMap, Traverse, Each, EncodableNumberPoint, EncodableHistogramPoint, EncodableExponentialPoint,
         EncodableSummaryPoint;
    if EncodableMetric(m) {
      match m.data
      case Gauge(ps) => NumberPointsRead(ps);
      case Sum(ps, _, _) => NumberPointsRead(ps);
      case Histogram(ps, _) => HistogramPointsRead(ps);
      case ExponentialHistogram(ps, _) => ExponentialPointsRead(ps);
      case Summary(ps) => SummaryPointsRead(ps);
    }
  }

  lemma ScopeMetricsReads(x: ScopeMetrics)
    ensures Reads(EncodableScopeMetrics(x), BuildScopeMetrics(x), ReadScopeMetrics, PlainScopeMetrics(x))
  {
    hide EncodableAttributes, BuildScope, ReadScope, PlainScope, TryMap, Traverse, Each, EncodableMetric,
         BuildMetric, ReadMetric, PlainMetric;
    if EncodableScopeMetrics(x) {
      ScopeReads(x.scope);
      forall m | m in x.metrics ensures Reads(EncodableMetric(m), BuildMetric(m), ReadMetric, PlainMetric(m)) {
        MetricReads(m);
      }
      ListReads(EncodableMetric, BuildMetric, ReadMetric, PlainMetric, x.metrics);
    }
  }

  lemma ResourceMetricsReads(x: ResourceMetrics)
    ensures Reads(EncodableResourceMetrics(x), BuildResourceMetrics(x), ReadResourceMetrics,
                  PlainResourceMetrics(x))
  {
    hide EncodableAttributes, BuildResource, ReadResource, TryMap, Traverse, Each, EncodableScopeMetrics,
         BuildScopeMetrics, ReadScopeMetrics, PlainScopeMetrics;
    if EncodableResourceMetrics(x) {
      ResourceReads(x.resource);
      forall y | y in x.scopeMetrics
        ensures Reads(EncodableScopeMetrics(y), BuildScopeMetrics(y), ReadScopeMetrics, PlainScopeMetrics(y))
      {
        ScopeMetricsReads(y);
      }
      ListReads(EncodableScopeMetrics, BuildScopeMetrics, ReadScopeMetrics, PlainScopeMetrics, x.scopeMetrics);
    }
  }

  // Both encodings of a metrics tree are read as that tree: every field is
  // where its name says, and every enum number is the one of the proto file.
  lemma MetricsAreReadBack(data: seq<ResourceMetrics>)
    requires forall x | x in data :: EncodableResourceMetrics(x)
    ensures EncodeMetrics(data).Ok? && BuildMetrics(data).Ok?
    ensures ParseMetrics(EncodeMetrics(data).value) == Some(BuildMetrics(data).value)
    ensures Traverse(ReadResourceMetrics, BuildMetrics(data).value) == Some(Each(PlainResourceMetrics, data))
  {
    hide EncodableResourceMetrics, BuildResourceMetrics, ReadResourceMetrics, PlainResourceMetrics, ParseMetrics,
         EncodeMetrics, TryMap, Traverse, Each;
    MetricsEncodersAgree(data);
    forall x | x in data
      ensures Reads(EncodableResourceMetrics(x), BuildResourceMetrics(x), ReadResourceMetrics,
                    PlainResourceMetrics(x))
    {
      ResourceMetricsReads(x);
    }
    ListReads(EncodableResourceMetrics, BuildResourceMetrics, ReadResourceMetrics, PlainResourceMetrics, data);
  }

  lemma LogRecordReads(r: LogRecord)
    ensures Reads(EncodableLogRecord(r), BuildLogRecord(r), ReadLogRecord, PlainLogRecord(r))
  {
    hide EncodableAttributes, BuildKeyValues, RestoreAttributes, EncodableValue, BuildAnyValue, RestoreValue;
    if EncodableLogRecord(r) {
      ValueAgrees(r.body);
      ValueRestored(r.body);
      AttributesRead(r.attributes);
    }
  }

  lemma ScopeLogsReads(x: ScopeLogs)
    ensures Reads(EncodableScopeLogs(x), BuildScopeLogs(x), ReadScopeLogs, PlainScopeLogs(x))
  {
    hide EncodableAttributes, BuildScope, ReadScope, PlainScope, TryMap, Traverse, Each, EncodableLogRecord,
         BuildLogRecord, ReadLogRecord, PlainLogRecord;
    if EncodableScopeLogs(x) {
      ScopeReads(x.scope);
      forall y | y in x.logRecords
        ensures Reads(EncodableLogRecord(y), BuildLogRecord(y), ReadLogRecord, PlainLogRecord(y))
      {
        LogRecordReads(y);
      }
      ListReads(EncodableLogRecord, BuildLogRecord, ReadLogRecord, PlainLogRecord, x.logRecords);
    }
  }

  lemma ResourceLogsReads(x: ResourceLogs)
    ensures Reads(EncodableResourceLogs(x), BuildResourceLogs(x), ReadResourceLogs, PlainResourceLogs(x))
  {
    hide EncodableAttributes, BuildResource, ReadResource, TryMap, Traverse, Each, EncodableScopeLogs,
         BuildScopeLogs, ReadScopeLogs, PlainScopeLogs;
    if EncodableResourceLogs(x) {
      ResourceReads(x.resource);
      forall y | y in x.scopeLogs
        ensures Reads(EncodableScopeLogs(y), BuildScopeLogs(y), ReadScopeLogs, PlainScopeLogs(y))
      {
        ScopeLogsReads(y);
      }
      ListReads(EncodableScopeLogs, BuildScopeLogs, ReadScopeLogs, PlainScopeLogs, x.scopeLogs);
    }
  }

  // The same for logs.
  lemma LogsAreReadBack(data: seq<ResourceLogs>)
    requires forall x | x in data :: EncodableResourceLogs(x)
    ensures EncodeLogs(data).Ok? && BuildLogs(data).Ok?
    ensures ParseLogs(EncodeLogs(data).value) == Some(BuildLogs(data).value)
    ensures Traverse(ReadResourceLogs, BuildLogs(data).value) == Some(Each(PlainResourceLogs, data))
  {
    hide EncodableResourceLogs, BuildResourceLogs, ReadResourceLogs, PlainResourceLogs, ParseLogs, EncodeLogs,
         TryMap, Traverse, Each;
    LogsEncodersAgree(data);
    forall x | x in data
      ensures Reads(EncodableResourceLogs(x), BuildResourceLogs(x), ReadResourceLogs, PlainResourceLogs(x))
    {
      ResourceLogsReads(x);
    }
    ListReads(EncodableResourceLogs, BuildResourceLogs, ReadResourceLogs, PlainResourceLogs, data);
  }

  lemma SpanEventReads(e: SpanEvent)
    ensures Reads(EncodableSpanEvent(e), BuildSpanEvent(e), ReadSpanEvent, e)
  {
    hide EncodableAttributes, BuildKeyValues, RestoreAttributes;
    if EncodableSpanEvent(e) { AttributesRead(e.attributes); }
  }

  lemma SpanLinkReads(l: SpanLink)
    ensures Reads(EncodableSpanLink(l), BuildSpanLink(l), ReadSpanLink, l)
  {
    hide EncodableAttributes, BuildKeyValues, RestoreAttributes;
    if EncodableSpanLink(l) { AttributesRead(l.attributes); }
  }

  lemma StatusReads(s: Option<Status>)
    ensures ReadStatus(BuildStatus(s)) == Some(s.GetOr(Status(UnsetCode, "")))
  {
  }

  function Same<A>(x: A): A {
    x
  }

  lemma {:induction false} EachSame<A>(xs: seq<A>)
    ensures Each(Same<A>, xs) == xs
  {
    if xs != [] {
      EachSame(xs[1..]);
      assert [xs[0]] + xs[1..] == xs;
    }
  }

  lemma SpanEventsRead(es: seq<SpanEvent>)
    requires forall e | e in es :: EncodableSpanEvent(e)
    ensures TryMap(BuildSpanEvent, es).Ok? && Traverse(ReadSpanEvent, TryMap(BuildSpanEvent, es).value) == Some(es)
  {
    hide EncodableSpanEvent, BuildSpanEvent, ReadSpanEvent;
    forall e | e in es ensures Reads(EncodableSpanEvent(e), BuildSpanEvent(e), ReadSpanEvent, Same(e)) {
      SpanEventReads(e);
    }
    ListReads(EncodableSpanEvent, BuildSpanEvent, ReadSpanEvent, Same<SpanEvent>, es);
    EachSame(es);
  }

  lemma SpanLinksRead(ls: seq<SpanLink>)
    requires forall l | l in ls :: EncodableSpanLink(l)
    ensures TryMap(BuildSpanLink, ls).Ok? && Traverse(ReadSpanLink, TryMap(BuildSpanLink, ls).value) == Some(ls)
  {
    hide EncodableSpanLink, BuildSpanLink, ReadSpanLink;
    forall l | l in ls ensures Reads(EncodableSpanLink(l), BuildSpanLink(l), ReadSpanLink, Same(l)) {
      SpanLinkReads(l);
    }
    ListReads(EncodableSpanLink, BuildSpanLink, ReadSpanLink, Same<SpanLink>, ls);
    EachSame(ls);
  }

  lemma SpanReads(s: Span)
    ensures Reads(EncodableSpan(s), BuildSpan(s), ReadSpan, PlainSpan(s))
  {
    hide EncodableAttributes, BuildKeyValues, RestoreAttributes, TryMap, Traverse, EncodableSpanEvent,
         EncodableSpanLink, BuildStatus, ReadStatus;
    if EncodableSpan(s) {
      AttributesRead(s.attributes);
      SpanEventsRead(s.events);
      SpanLinksRead(s.links);
      StatusReads(s.status);
    }
  }

  lemma ScopeSpansReads(x: ScopeSpans)
    ensures Reads(EncodableScopeSpans(x), BuildScopeSpans(x), ReadScopeSpans, PlainScopeSpans(x))
  {
    hide EncodableAttributes, BuildScope, ReadScope, PlainScope, TryMap, Traverse, Each, EncodableSpan,
         BuildSpan, ReadSpan, PlainSpan;
    if EncodableScopeSpans(x) {
      ScopeReads(x.scope);
      forall y | y in x.spans ensures Reads(EncodableSpan(y), BuildSpan(y), ReadSpan, PlainSpan(y)) {
        SpanReads(y);
      }
      ListReads(EncodableSpan, BuildSpan, ReadSpan, PlainSpan, x.spans);
    }
  }

  lemma ResourceSpansReads(x: ResourceSpans)
    ensures Reads(EncodableResourceSpans(x), BuildResourceSpans(x), ReadResourceSpans, PlainResourceSpans(x))
  {
    hide EncodableAttributes, BuildResource, ReadResource, TryMap, Traverse, Each, EncodableScopeSpans,
         BuildScopeSpans, ReadScopeSpans, PlainScopeSpans;
    if EncodableResourceSpans(x) {
      ResourceReads(x.resource);
      forall y | y in x.scopeSpans
        ensures Reads(EncodableScopeSpans(y), BuildScopeSpans(y), ReadScopeSpans, PlainScopeSpans(y))
      {
        ScopeSpansReads(y);
      }
      ListReads(EncodableScopeSpans, BuildScopeSpans, ReadScopeSpans, PlainScopeSpans, x.scopeSpans);
    }
  }

  // And for traces.
  lemma TracesAreReadBack(data: seq<ResourceSpans>)
    requires forall x | x in data :: EncodableResourceSpans(x)
    ensures EncodeTraces(data).Ok? && BuildTraces(data).Ok?
    ensures ParseTraces(EncodeTraces(data).value) == Some(BuildTraces(data).value)
    ensures Traverse(ReadResourceSpans, BuildTraces(data).value) == Some(Each(PlainResourceSpans, data))
  {
    hide EncodableResourceSpans, BuildResourceSpans, ReadResourceSpans, PlainResourceSpans, ParseTraces,
         EncodeTraces, TryMap, Traverse, Each;
    TracesEncodersAgree(data);
    forall x | x in data
      ensures Reads(EncodableResourceSpans(x), BuildResourceSpans(x), ReadResourceSpans, PlainResourceSpans(x))
    {
      ResourceSpansReads(x);
    }
    ListReads(EncodableResourceSpans, BuildResourceSpans, ReadResourceSpans, PlainResourceSpans, data);
  }
}

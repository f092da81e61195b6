// The documents are small: no member of any object is null, empty or a zero
// that a reader would assume, wherever the encoder has the choice.
module Compact {
  import opened Wrappers
  import opened Text
  import opened Model
  import opened Json
  import opened JsonEncoder
  import opened Encodable

  // What a reader assumes of a missing member.
  predicate IsDefault(v: Json) {
    v == Null || v == Str("") || v == Arr([]) || v == Obj(map[]) || v == Int(0)
  }

  // Members that are always written: the two of a key-value pair, the one case
  // of a value, the list inside a container, and the data of a metric and of a
  // request.
  const ALWAYS := {Key.key, Key.stringValue, Key.bytesValue, Key.values, Key.dataPoints,
                   Key.aggregationTemporality, Key.resourceMetrics, Key.resourceLogs, Key.resourceSpans}

  predicate Fit(k: Key, v: Json) {
    && v != Null
    && (k !in ALWAYS ==> !IsDefault(v))
    && (k == Key.zeroThreshold ==> v != Num(PosZero))
  }

  predicate IsCompact(j: Json) {
    match j
    case Arr(items) => forall item | item in items :: item != Null && IsCompact(item)
    case Obj(o) => forall k | k in o :: Fit(k, o[k]) && IsCompact(o[k])
    case _ => true
  }

  // A member's value before omit_empty has looked at it.
  predicate Ready(v: Json) {
    v != Int(0) && IsCompact(v)
  }

  lemma LeavesAreCompact()
    ensures forall v: Json :: !v.Arr? && !v.Obj? ==> IsCompact(v)
  {
  }

  lemma OmittedIsCompact(o: Object)
    requires forall k | k in o :: Ready(o[k])
    requires Key.zeroThreshold in o ==> o[Key.zeroThreshold] != Num(PosZero)
    ensures IsCompact(Obj(OmitEmpty(o)))
  {
    var r := OmitEmpty(o);
    forall k | k in r ensures Fit(k, r[k]) && IsCompact(r[k]) {
      OmitEmptyKeeps(o, k);
      assert Ready(o[k]);
    }
  }

  ghost predicate Produces(json: Encoded<Json>) {
    json.Ok? ==> json.value.Obj? && IsCompact(json.value)
  }

  lemma {:induction false} ListIsCompact<A>(encode: A -> Encoded<Json>, xs: seq<A>)
    requires forall x | x in xs :: Produces(encode(x))
    ensures TryMap(encode, xs).Ok? ==> IsCompact(Arr(TryMap(encode, xs).value))
  {
    if xs != [] {
      assert Produces(encode(xs[0]));
      assert forall x | x in xs[1..] :: x in xs;
      ListIsCompact(encode, xs[1..]);
    }
  }

  // ---- shared parts ----

  lemma SoleMemberIsCompact(k: Key, v: Json)
    requires Fit(k, v) && IsCompact(v)
    ensures IsCompact(Obj(map[k := v]))
  {
    var o: Object := map[k := v];
    assert Obj(o).fields == o && forall j | j in o :: j == k;
  }

  lemma {:induction false} ValueIsCompact(v: AnyValue)
    ensures Produces(EncodeAnyValue(v))
    decreases v, 0
  {
    hide Base64, IntToString, IsCompact;
    match v
    case MapValue(entries) =>
      AttributesAreCompact(entries);
      if EncodeAttributes(entries).Ok? { ContainerIsCompact(Key.kvlistValue, EncodeAttributes(entries).value); }
    case ListValue(values) =>
      ValuesAreCompact(values);
      if EncodeValues(values).Ok? { ContainerIsCompact(Key.arrayValue, EncodeValues(values).value); }
    case _ => ScalarIsCompact(v);
  }

  lemma ContainerIsCompact(k: Key, items: seq<Json>)
    requires IsCompact(Arr(items)) && k != Key.zeroThreshold
    ensures IsCompact(Obj(map[k := Obj(map[Key.values := Arr(items)])]))
  {
    hide IsCompact;
    var inner: Object := map[Key.values := Arr(items)];
    assert Key.values in inner && inner != map[];
    SoleMemberIsCompact(Key.values, Arr(items));
    SoleMemberIsCompact(k, Obj(inner));
  }

  lemma ScalarIsCompact(v: AnyValue)
    requires !v.MapValue? && !v.ListValue?
    ensures Produces(EncodeAnyValue(v))
  {
    hide Base64, IntToString;
    match v
    case BoolValue(b) => SoleMemberIsCompact(Key.boolValue, Bool(b));
    case IntValue(i) => SoleMemberIsCompact(Key.intValue, U64Text(i));
    case DoubleValue(d) => SoleMemberIsCompact(Key.doubleValue, Num(d));
    case StringValue(t) => SoleMemberIsCompact(Key.stringValue, Str(t));
    case BytesValue(bytes) => SoleMemberIsCompact(Key.bytesValue, Str(Base64(bytes)));
    case Unsupported =>
  }

  lemma {:induction false} ValuesAreCompact(vs: seq<AnyValue>)
    ensures EncodeValues(vs).Ok? ==> IsCompact(Arr(EncodeValues(vs).value))
    decreases vs, 0
  {
    if vs != [] {
      ValueIsCompact(vs[0]);
      ValuesAreCompact(vs[1..]);
    }
  }

  lemma {:induction false} AttributesAreCompact(attributes: Attributes)
    ensures EncodeAttributes(attributes).Ok? ==> IsCompact(Arr(EncodeAttributes(attributes).value))
    decreases attributes, 1
  {
    hide EncodeAnyValue;
    if attributes != [] {
      ValueIsCompact(attributes[0].value);
      ValueIsAnObject(attributes[0].value);
      AttributesAreCompact(attributes[1..]);
      if EncodeAttributes(attributes).Ok? {
        PairIsCompact(attributes[0].key, EncodeAnyValue(attributes[0].value).value);
      }
    }
  }

  lemma PairIsCompact(key: string, value: Json)
    requires IsCompact(value) && !IsDefault(value)
    ensures IsCompact(Obj(map[Key.key := Str(key), Key.value := value]))
  {
  }

  lemma ValueIsAnObject(v: AnyValue)
    ensures EncodeAnyValue(v).Ok? ==> !IsDefault(EncodeAnyValue(v).value)
  {
    hide EncodeAttributes, EncodeValues, Base64, IntToString;
    if EncodeAnyValue(v).Ok? {
      var o := EncodeAnyValue(v).value.fields;
      assert exists k :: k in o by {
        assert Key.boolValue in o || Key.intValue in o || Key.doubleValue in o || Key.stringValue in o
            || Key.bytesValue in o || Key.kvlistValue in o || Key.arrayValue in o;
      }
    }
  }

  lemma NumbersAreCompact(ns: seq<U64>, ds: seq<Float>)
    ensures IsCompact(Arr(U64Texts(ns))) && IsCompact(Arr(Doubles(ds)))
  {
  }

  lemma ResourceIsCompact(r: Resource)
    ensures Produces(EncodeResource(r))
  {
    hide EncodeAttributes, OmitEmpty;
    AttributesAreCompact(r.attributes);
    if EncodeResource(r).Ok? {
      OmittedIsCompact(map[
        Key.attributes := Arr(EncodeAttributes(r.attributes).value),
        Key.droppedAttributesCount := OrNone(r.droppedAttributesCount)]);
    }
  }

  lemma ScopeIsCompact(s: Scope)
    ensures Produces(EncodeScope(s))
  {
    hide EncodeAttributes, OmitEmpty;
    AttributesAreCompact(s.attributes);
    if EncodeScope(s).Ok? {
      OmittedIsCompact(map[
        Key.name := Str(s.name),
        Key.version := OptionalText(s.version),
        Key.attributes := Arr(EncodeAttributes(s.attributes).value)]);
    }
  }

  // ---- metrics ----

  lemma ExemplarIsCompact(e: Exemplar)
    ensures Produces(EncodeExemplar(e))
  {
    hide EncodeAttributes, OmitEmpty, IntToString, HexId;
    AttributesAreCompact(e.filteredAttributes);
    if EncodeExemplar(e).Ok? {
      OmittedIsCompact(map[
        Key.filteredAttributes := Arr(EncodeAttributes(e.filteredAttributes).value),
        Key.timeUnixNano := U64Text(e.timeUnixNano),
        NumberKey(e.value) := NumberJson(e.value),
        Key.spanId := OptionalId(e.spanId),
        Key.traceId := OptionalId(e.traceId)]);
    }
  }

  lemma NumberPointIsCompact(p: NumberDataPoint)
    ensures Produces(EncodeNumberPoint(p))
  {
    hide EncodeAttributes, OmitEmpty, IntToString, HexId, TryMap, EncodeExemplar, U64Texts, Doubles, IsCompact;
    LeavesAreCompact();
    AttributesAreCompact(p.attributes);
    forall y | y in p.exemplars ensures Produces(EncodeExemplar(y)) {
      ExemplarIsCompact(y);
    }
    ListIsCompact(EncodeExemplar, p.exemplars);
    if EncodeNumberPoint(p).Ok? {
      OmittedIsCompact(map[
        Key.attributes := Arr(EncodeAttributes(p.attributes).value),
        Key.startTimeUnixNano := OptionalU64(p.startTimeUnixNano),
        Key.timeUnixNano := U64Text(p.timeUnixNano),
        Key.flags := OrNone(p.flags),
        Key.exemplars := Arr(TryMap(EncodeExemplar, p.exemplars).value),
        NumberKey(p.value) := NumberJson(p.value)]);
    }
  }

  lemma HistogramPointIsCompact(p: HistogramDataPoint)
    ensures Produces(EncodeHistogramPoint(p))
  {
    hide EncodeAttributes, OmitEmpty, IntToString, HexId, TryMap, EncodeExemplar, U64Texts, Doubles, IsCompact;
    LeavesAreCompact();
    AttributesAreCompact(p.attributes);
    forall y | y in p.exemplars ensures Produces(EncodeExemplar(y)) {
      ExemplarIsCompact(y);
    }
    ListIsCompact(EncodeExemplar, p.exemplars);
    NumbersAreCompact(p.bucketCounts, p.explicitBounds);
    if EncodeHistogramPoint(p).Ok? {
      OmittedIsCompact(map[
        Key.attributes := Arr(EncodeAttributes(p.attributes).value),
        Key.startTimeUnixNano := OptionalU64(p.startTimeUnixNano),
        Key.timeUnixNano := U64Text(p.timeUnixNano),
        Key.count := U64Text(p.count),
        Key.sum := OptionalDouble(p.sum),
        Key.bucketCounts := Arr(U64Texts(p.bucketCounts)),
        Key.explicitBounds := Arr(Doubles(p.explicitBounds)),
        Key.flags := OrNone(p.flags),
        Key.exemplars := Arr(TryMap(EncodeExemplar, p.exemplars).value),
        Key.min := OptionalDouble(p.min),
        Key.max := OptionalDouble(p.max)]);
    }
  }

  lemma BucketsAreCompact(b: Buckets)
    ensures IsCompact(EncodeBuckets(b)) && EncodeBuckets(b).Obj?
  {
    hide OmitEmpty, U64Texts;
    NumbersAreCompact(b.bucketCounts, []);
    OmittedIsCompact(map[Key.offset := OrNone(b.offset), Key.bucketCounts := Arr(U64Texts(b.bucketCounts))]);
  }

  lemma ExponentialPointIsCompact(p: ExponentialPoint)
    ensures Produces(EncodeExponentialPoint(p))
  {
    hide EncodeAttributes, OmitEmpty, IntToString, HexId, TryMap, EncodeExemplar, EncodeBuckets, IsCompact;
    LeavesAreCompact();
    AttributesAreCompact(p.attributes);
    forall y | y in p.exemplars ensures Produces(EncodeExemplar(y)) {
      ExemplarIsCompact(y);
    }
    ListIsCompact(EncodeExemplar, p.exemplars);
    BucketsAreCompact(p.positive);
    BucketsAreCompact(p.negative);
    if EncodeExponentialPoint(p).Ok? {
      OmittedIsCompact(map[
        Key.attributes := Arr(EncodeAttributes(p.attributes).value),
        Key.startTimeUnixNano := OptionalU64(p.startTimeUnixNano),
        Key.timeUnixNano := U64Text(p.timeUnixNano),
        Key.count := U64Text(p.count),
        Key.sum := OptionalDouble(p.sum),
        Key.scale := OrNone(p.scale),
        Key.zeroCount := if p.zeroCount != 0 then U64Text(p.zeroCount) else Null,
        Key.positive := EncodeBuckets(p.positive),
        Key.negative := EncodeBuckets(p.negative),
        Key.min := OptionalDouble(p.min),
        Key.max := OptionalDouble(p.max),
        Key.flags := OrNone(p.flags),
        Key.exemplars := Arr(TryMap(EncodeExemplar, p.exemplars).value),
        Key.zeroThreshold := ImplicitDouble(p.zeroThreshold)]);
    }
  }

  lemma QuantilesAreCompact(qs: seq<ValueAtQuantile>)
    ensures IsCompact(Arr(EncodeQuantiles(qs)))
  {
  }

  lemma SummaryPointIsCompact(p: SummaryDataPoint)
    ensures Produces(EncodeSummaryPoint(p))
  {
    hide EncodeAttributes, OmitEmpty, IntToString, EncodeQuantiles, IsCompact;
    LeavesAreCompact();
    AttributesAreCompact(p.attributes);
    QuantilesAreCompact(p.quantileValues);
    if EncodeSummaryPoint(p).Ok? {
      OmittedIsCompact(map[
        Key.attributes := Arr(EncodeAttributes(p.attributes).value),
        Key.startTimeUnixNano := OptionalU64(p.startTimeUnixNano),
        Key.timeUnixNano := U64Text(p.timeUnixNano),
        Key.count := U64Text(p.count),
        Key.sum := ImplicitDouble(p.sum),
        Key.quantileValues := Arr(EncodeQuantiles(p.quantileValues)),
        Key.flags := OrNone(p.flags)]);
    }
  }

  lemma MetricDataIsCompact(d: MetricData)
    ensures Produces(EncodeMetricData(d))
  {
    hide TryMap, EncodeNumberPoint, EncodeHistogramPoint, EncodeExponentialPoint, EncodeSummaryPoint, IsCompact;
    match d
    case Gauge(ps) =>
      NumberPointsAreCompact(ps);
      var points := TryMap(EncodeNumberPoint, ps);
      if points.Ok? { SoleMemberIsCompact(Key.dataPoints, Arr(points.value)); }
    case Sum(ps, t, monotonic) =>
      NumberPointsAreCompact(ps);
      var points := TryMap(EncodeNumberPoint, ps);
      if points.Ok? { SumIsCompact(points.value, t.Number(), monotonic); }
    case Histogram(ps, t) =>
      forall p | p in ps ensures Produces(EncodeHistogramPoint(p)) { HistogramPointIsCompact(p); }
      ListIsCompact(EncodeHistogramPoint, ps);
      var points := TryMap(EncodeHistogramPoint, ps);
      if points.Ok? { TemporalIsCompact(points.value, t.Number()); }
    case ExponentialHistogram(ps, t) =>
      forall p | p in ps ensures Produces(EncodeExponentialPoint(p)) { ExponentialPointIsCompact(p); }
      ListIsCompact(EncodeExponentialPoint, ps);
      var points := TryMap(EncodeExponentialPoint, ps);
      if points.Ok? { TemporalIsCompact(points.value, t.Number()); }
    case Summary(ps) =>
      forall p | p in ps ensures Produces(EncodeSummaryPoint(p)) { SummaryPointIsCompact(p); }
      ListIsCompact(EncodeSummaryPoint, ps);
      var points := TryMap(EncodeSummaryPoint, ps);
      if points.Ok? { SoleMemberIsCompact(Key.dataPoints, Arr(points.value)); }
  }

  lemma NumberPointsAreCompact(ps: seq<NumberDataPoint>)
    ensures TryMap(EncodeNumberPoint, ps).Ok? ==> IsCompact(Arr(TryMap(EncodeNumberPoint, ps).value))
  {
    hide EncodeNumberPoint;
    forall p | p in ps ensures Produces(EncodeNumberPoint(p)) { NumberPointIsCompact(p); }
    ListIsCompact(EncodeNumberPoint, ps);
  }

  lemma SumIsCompact(points: seq<Json>, temporality: int, monotonic: bool)
    requires IsCompact(Arr(points))
    ensures IsCompact(Obj(map[Key.dataPoints := Arr(points), Key.aggregationTemporality := Int(temporality),
                              Key.isMonotonic := Bool(monotonic)]))
  {
  }

  lemma TemporalIsCompact(points: seq<Json>, temporality: int)
    requires IsCompact(Arr(points))
    ensures IsCompact(Obj(map[Key.dataPoints := Arr(points), Key.aggregationTemporality := Int(temporality)]))
  {
  }

  lemma MetricIsCompact(m: Metric)
    ensures Produces(EncodeMetric(m))
  {
    hide OmitEmpty, EncodeMetricData;
    MetricDataIsCompact(m.data);
    if EncodeMetric(m).Ok? {
      OmittedIsCompact(map[
        Key.name := Str(m.name),
        Key.description := Str(m.description),
        Key.unit := Str(m.unit),
        DataKey(m.data) := EncodeMetricData(m.data).value]);
    }
  }

  lemma ScopeMetricsIsCompact(x: ScopeMetrics)
    ensures Produces(EncodeScopeMetrics(x))
  {
    hide OmitEmpty, EncodeScope, TryMap, EncodeMetric;
    ScopeIsCompact(x.scope);
    forall y | y in x.metrics ensures Produces(EncodeMetric(y)) {
      MetricIsCompact(y);
    }
    ListIsCompact(EncodeMetric, x.metrics);
    if EncodeScopeMetrics(x).Ok? {
      OmittedIsCompact(map[
        Key.scope := EncodeScope(x.scope).value,
        Key.metrics := Arr(TryMap(EncodeMetric, x.metrics).value)]);
    }
  }

  lemma ResourceMetricsIsCompact(x: ResourceMetrics)
    ensures Produces(EncodeOneResourceMetrics(x))
  {
    hide OmitEmpty, EncodeResource, TryMap, EncodeScopeMetrics;
    ResourceIsCompact(x.resource);
    forall y | y in x.scopeMetrics ensures Produces(EncodeScopeMetrics(y)) {
      ScopeMetricsIsCompact(y);
    }
    ListIsCompact(EncodeScopeMetrics, x.scopeMetrics);
    if EncodeOneResourceMetrics(x).Ok? {
      OmittedIsCompact(map[
        Key.resource := EncodeResource(x.resource).value,
        Key.scopeMetrics := Arr(TryMap(EncodeScopeMetrics, x.scopeMetrics).value)]);
    }
  }

  // Every metrics document is compact.
  lemma MetricsAreCompact(data: seq<ResourceMetrics>)
    ensures Produces(EncodeMetrics(data))
  {
    hide TryMap, EncodeOneResourceMetrics;
    forall x | x in data ensures Produces(EncodeOneResourceMetrics(x)) {
      ResourceMetricsIsCompact(x);
    }
    ListIsCompact(EncodeOneResourceMetrics, data);
  }

  // ---- logs ----

  lemma LogRecordIsCompact(r: LogRecord)
    ensures Produces(EncodeLogRecord(r))
  {
    hide EncodeAttributes, EncodeAnyValue, OmitEmpty, IntToString, HexId, IsCompact;
    LeavesAreCompact();
    ValueIsCompact(r.body);
    ValueIsAnObject(r.body);
    AttributesAreCompact(r.attributes);
    if EncodeLogRecord(r).Ok? {
      OmittedIsCompact(map[
        Key.timeUnixNano := U64Text(r.timeUnixNano),
        Key.observedTimeUnixNano := U64Text(r.observedTimeUnixNano),
        Key.severityNumber := OrNone(r.severityNumber.Number()),
        Key.severityText := Str(r.severityText),
        Key.body := EncodeAnyValue(r.body).value,
        Key.attributes := Arr(EncodeAttributes(r.attributes).value),
        Key.traceId := OptionalId(r.traceId),
        Key.spanId := OptionalId(r.spanId),
        Key.eventName := Str(r.eventName),
        Key.flags := OrNone(r.flags)]);
    }
  }

  lemma ScopeLogsIsCompact(x: ScopeLogs)
    ensures Produces(EncodeScopeLogs(x))
  {
    hide OmitEmpty, EncodeScope, TryMap, EncodeLogRecord;
    ScopeIsCompact(x.scope);
    forall y | y in x.logRecords ensures Produces(EncodeLogRecord(y)) {
      LogRecordIsCompact(y);
    }
    ListIsCompact(EncodeLogRecord, x.logRecords);
    if EncodeScopeLogs(x).Ok? {
      OmittedIsCompact(map[
        Key.scope := EncodeScope(x.scope).value,
        Key.logRecords := Arr(TryMap(EncodeLogRecord, x.logRecords).value)]);
    }
  }

  lemma ResourceLogsIsCompact(x: ResourceLogs)
    ensures Produces(EncodeOneResourceLogs(x))
  {
    hide OmitEmpty, EncodeResource, TryMap, EncodeScopeLogs;
    ResourceIsCompact(x.resource);
    forall y | y in x.scopeLogs ensures Produces(EncodeScopeLogs(y)) {
      ScopeLogsIsCompact(y);
    }
    ListIsCompact(EncodeScopeLogs, x.scopeLogs);
    if EncodeOneResourceLogs(x).Ok? {
      OmittedIsCompact(map[
        Key.resource := EncodeResource(x.resource).value,
        Key.scopeLogs := Arr(TryMap(EncodeScopeLogs, x.scopeLogs).value)]);
    }
  }

  // Every logs document is.
  lemma LogsAreCompact(data: seq<ResourceLogs>)
    ensures Produces(EncodeLogs(data))
  {
    hide TryMap, EncodeOneResourceLogs;
    forall x | x in data ensures Produces(EncodeOneResourceLogs(x)) {
      ResourceLogsIsCompact(x);
    }
    ListIsCompact(EncodeOneResourceLogs, data);
  }

  // ---- traces ----

  lemma SpanEventIsCompact(e: SpanEvent)
    ensures Produces(EncodeSpanEvent(e))
  {
    hide EncodeAttributes, OmitEmpty, IntToString, HexId;
    AttributesAreCompact(e.attributes);
    if EncodeSpanEvent(e).Ok? {
      OmittedIsCompact(map[
        Key.timeUnixNano := U64Text(e.timeUnixNano),
        Key.name := Str(e.name),
        Key.attributes := Arr(EncodeAttributes(e.attributes).value)]);
    }
  }

  lemma SpanLinkIsCompact(l: SpanLink)
    ensures Produces(EncodeSpanLink(l))
  {
    hide EncodeAttributes, OmitEmpty, IntToString, HexId;
    AttributesAreCompact(l.attributes);
    if EncodeSpanLink(l).Ok? {
      OmittedIsCompact(map[
        Key.traceId := Str(HexId(l.traceId)),
        Key.spanId := Str(HexId(l.spanId)),
        Key.traceState := Str(l.traceState),
        Key.flags := OrNone(l.flags),
        Key.attributes := Arr(EncodeAttributes(l.attributes).value)]);
    }
  }

  lemma StatusIsCompact(s: Option<Status>)
    ensures IsCompact(EncodeStatus(s)) && (EncodeStatus(s).Null? || EncodeStatus(s).Obj?)
  {
    hide OmitEmpty;
    if s.Some? {
      OmittedIsCompact(map[Key.code := OrNone(s.value.code.Number()), Key.message := Str(s.value.message)]);
    }
  }

  lemma SpanIsCompact(s: Span)
    ensures Produces(EncodeSpan(s))
  {
    hide EncodeAttributes, OmitEmpty, IntToString, HexId, TryMap, EncodeSpanEvent, EncodeSpanLink, EncodeStatus, IsCompact;
    LeavesAreCompact();
    AttributesAreCompact(s.attributes);
    forall y | y in s.events ensures Produces(EncodeSpanEvent(y)) {
      SpanEventIsCompact(y);
    }
    ListIsCompact(EncodeSpanEvent, s.events);
    forall y | y in s.links ensures Produces(EncodeSpanLink(y)) {
      SpanLinkIsCompact(y);
    }
    ListIsCompact(EncodeSpanLink, s.links);
    StatusIsCompact(s.status);
    if EncodeSpan(s).Ok? {
      OmittedIsCompact(map[
        Key.traceId := Str(HexId(s.traceId)),
        Key.spanId := Str(HexId(s.spanId)),
        Key.parentSpanId := OptionalId(s.parentSpanId),
        Key.name := Str(s.name),
        Key.kind := OrNone(s.kind.Number()),
        Key.startTimeUnixNano := U64Text(s.startTimeUnixNano),
        Key.endTimeUnixNano := U64Text(s.endTimeUnixNano),
        Key.traceState := Str(s.traceState),
        Key.flags := OrNone(s.flags),
        Key.attributes := Arr(EncodeAttributes(s.attributes).value),
        Key.events := Arr(TryMap(EncodeSpanEvent, s.events).value),
        Key.links := Arr(TryMap(EncodeSpanLink, s.links).value),
        Key.status := EncodeStatus(s.status)]);
    }
  }

  lemma ScopeSpansIsCompact(x: ScopeSpans)
    ensures Produces(EncodeScopeSpans(x))
  {
    hide OmitEmpty, EncodeScope, TryMap, EncodeSpan;
    ScopeIsCompact(x.scope);
    forall y | y in x.spans ensures Produces(EncodeSpan(y)) {
      SpanIsCompact(y);
    }
    ListIsCompact(EncodeSpan, x.spans);
    if EncodeScopeSpans(x).Ok? {
      OmittedIsCompact(map[
        Key.scope := EncodeScope(x.scope).value,
        Key.spans := Arr(TryMap(EncodeSpan, x.spans).value)]);
    }
  }

  lemma ResourceSpansIsCompact(x: ResourceSpans)
    ensures Produces(EncodeOneResourceSpans(x))
  {
    hide OmitEmpty, EncodeResource, TryMap, EncodeScopeSpans;
    ResourceIsCompact(x.resource);
    forall y | y in x.scopeSpans ensures Produces(EncodeScopeSpans(y)) {
      ScopeSpansIsCompact(y);
    }
    ListIsCompact(EncodeScopeSpans, x.scopeSpans);
    if EncodeOneResourceSpans(x).Ok? {
      OmittedIsCompact(map[
        Key.resource := EncodeResource(x.resource).value,
        Key.scopeSpans := Arr(TryMap(EncodeScopeSpans, x.scopeSpans).value)]);
    }
  }

  // And every traces document.
  lemma TracesAreCompact(data: seq<ResourceSpans>)
    ensures Produces(EncodeTraces(data))
  {
    hide TryMap, EncodeOneResourceSpans;
    forall x | x in data ensures Produces(EncodeOneResourceSpans(x)) {
      ResourceSpansIsCompact(x);
    }
    ListIsCompact(EncodeOneResourceSpans, data);
  }
}

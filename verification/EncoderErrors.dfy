// The encoders raise on the same trees; whether they raise the same error is
// another matter, because they test a point's value at different moments. For
// logs and traces they always do, for metrics exactly when the first thing
// that cannot be encoded is no number point with a boolean and a second fault.
module EncoderErrors {
  import opened Wrappers
  import opened Model
  import opened JsonEncoder
  import opened Json
  import opened ProtobufEncoder
  import opened ProtoJson
  import opened Encodable
  import opened Agreement
  import opened MetricsAgreement
  import opened LogsAgreement
  import opened TracesAgreement

  // An attribute value can only fail by its type.
  lemma {:induction false} ValueErrors(v: AnyValue)
    ensures EncodeAnyValue(v).Raised? ==> EncodeAnyValue(v).error == UnsupportedAttribute
    ensures BuildAnyValue(v).Raised? ==> BuildAnyValue(v).error == UnsupportedAttribute
    decreases v, 0
  {
    match v
    case MapValue(entries) => AttributeErrors(entries);
    case ListValue(values) => ListErrors(values);
    case _ =>
  }

  lemma {:induction false} ListErrors(vs: seq<AnyValue>)
    ensures EncodeValues(vs).Raised? ==> EncodeValues(vs).error == UnsupportedAttribute
    ensures BuildValues(vs).Raised? ==> BuildValues(vs).error == UnsupportedAttribute
    decreases vs, 0
  {
    if vs != [] {
      ValueErrors(vs[0]);
      ListErrors(vs[1..]);
    }
  }

  lemma {:induction false} AttributeErrors(attributes: Attributes)
    ensures EncodeAttributes(attributes).Raised? ==> EncodeAttributes(attributes).error == UnsupportedAttribute
    ensures BuildKeyValues(attributes).Raised? ==> BuildKeyValues(attributes).error == UnsupportedAttribute
    decreases attributes, 1
  {
    if attributes != [] {
      ValueErrors(attributes[0].value);
      AttributeErrors(attributes[1..]);
    }
  }

  // Both encoders test an exemplar's value first, so their errors are the same.
  lemma ExemplarErrors(e: Exemplar)
    requires !EncodableExemplar(e)
    ensures EncodeExemplar(e).Raised? && BuildExemplar(e).Raised?
    ensures EncodeExemplar(e).error == BuildExemplar(e).error
  {
    hide EncodeAttributes, BuildKeyValues, EncodableAttributes;
    AttributeErrors(e.filteredAttributes);
    AttributesAgree(e.filteredAttributes);
  }

  lemma {:induction false} ExemplarListErrors(es: seq<Exemplar>)
    requires !EncodableExemplars(es)
    ensures TryMap(EncodeExemplar, es).Raised? && TryMap(BuildExemplar, es).Raised?
    ensures TryMap(EncodeExemplar, es).error == TryMap(BuildExemplar, es).error
  {
    hide EncodeExemplar, BuildExemplar, EncodableExemplar;
    assert es != [];
    if EncodableExemplar(es[0]) {
      ExemplarAgrees(es[0]);
      assert es == [es[0]] + es[1..];
      ExemplarListErrors(es[1..]);
    } else {
      ExemplarErrors(es[0]);
    }
  }

  predicate HasTwoFaults(p: NumberDataPoint) {
    p.value.BoolMeasurement? && !(EncodableAttributes(p.attributes) && EncodableExemplars(p.exemplars))
  }

  // A number point that cannot be encoded raises the same error in both
  // encoders exactly when its value is no boolean, or nothing else is wrong:
  // the JSON encoder tests the value first, the protobuf encoder last.
  lemma PointErrors(p: NumberDataPoint)
    requires !EncodableNumberPoint(p)
    ensures EncodeNumberPoint(p).Raised? && BuildNumberPoint(p).Raised?
    ensures EncodeNumberPoint(p).error == BuildNumberPoint(p).error <==> !HasTwoFaults(p)
  {
    hide EncodeAttributes, BuildKeyValues, EncodableAttributes, TryMap, EncodableExemplars;
    AttributesAgree(p.attributes);
    AttributeErrors(p.attributes);
    ExemplarsAgree(p.exemplars);
    if !EncodableExemplars(p.exemplars) {
      ExemplarListErrors(p.exemplars);
      ExemplarsNeverBlameThePoint(p.exemplars);
    }
  }

  lemma {:induction false} ExemplarsNeverBlameThePoint(es: seq<Exemplar>)
    ensures TryMap(BuildExemplar, es).Raised? ==> TryMap(BuildExemplar, es).error != BooleanPoint
  {
    if es != [] {
      AttributeErrors(es[0].filteredAttributes);
      ExemplarsNeverBlameThePoint(es[1..]);
    }
  }

  // ---- lists ----

  // The first element that is not fine.
  function FirstBad<A>(fine: A -> bool, xs: seq<A>): (r: Option<A>)
    ensures r.None? <==> forall x | x in xs :: fine(x)
    ensures r.Some? ==> r.value in xs && !fine(r.value)
  {
    if xs == [] then None
    else if !fine(xs[0]) then Some(xs[0])
    else
      assert xs == [xs[0]] + xs[1..];
      FirstBad(fine, xs[1..])
  }

  // A comprehension raises the error of the first element that cannot be encoded.
  lemma {:induction false} FirstBadRaises<A, B>(fine: A -> bool, f: A -> Result<B, TypeError>, xs: seq<A>)
    requires forall x | x in xs :: f(x).Ok? <==> fine(x)
    ensures TryMap(f, xs).Raised? <==> FirstBad(fine, xs).Some?
    ensures FirstBad(fine, xs).Some? ==>
      f(FirstBad(fine, xs).value).Raised? && TryMap(f, xs).error == f(FirstBad(fine, xs).value).error
  {
    if xs != [] && fine(xs[0]) {
      assert xs == [xs[0]] + xs[1..];
      FirstBadRaises(fine, f, xs[1..]);
    }
  }

  // Both encoders stop a list at the same element.
  lemma ListBlame<A, J, M>(fine: A -> bool, encode: A -> Result<J, TypeError>, build: A -> Result<M, TypeError>,
                           xs: seq<A>)
    requires forall x | x in xs :: encode(x).Ok? == build(x).Ok? == fine(x)
    requires FirstBad(fine, xs).Some?
    ensures TryMap(encode, xs).Raised? && TryMap(build, xs).Raised?
    ensures var x := FirstBad(fine, xs).value;
      && encode(x).Raised? && TryMap(encode, xs).error == encode(x).error
      && build(x).Raised? && TryMap(build, xs).error == build(x).error
  {
    FirstBadRaises(fine, encode, xs);
    FirstBadRaises(fine, build, xs);
  }

  // ---- metrics ----

  // Both raise, and raise the same error unless `mixed`.
  ghost predicate Blame<J, M>(mixed: bool, json: Result<J, TypeError>, built: Result<M, TypeError>) {
    json.Raised? && built.Raised? && (json.error == built.error <==> !mixed)
  }

  lemma HistogramPointErrors(p: HistogramDataPoint)
    requires !EncodableHistogramPoint(p)
    ensures Blame(false, EncodeHistogramPoint(p), BuildHistogramPoint(p))
  {
    hide EncodeAttributes, BuildKeyValues, EncodableAttributes, TryMap, EncodableExemplars;
    AttributesAgree(p.attributes);
    AttributeErrors(p.attributes);
    ExemplarsAgree(p.exemplars);
    if !EncodableExemplars(p.exemplars) { ExemplarListErrors(p.exemplars); }
  }

  lemma ExponentialPointErrors(p: ExponentialPoint)
    requires !EncodableExponentialPoint(p)
    ensures Blame(false, EncodeExponentialPoint(p), BuildExponentialPoint(p))
  {
    hide EncodeAttributes, BuildKeyValues, EncodableAttributes, TryMap, EncodableExemplars;
    AttributesAgree(p.attributes);
    AttributeErrors(p.attributes);
    ExemplarsAgree(p.exemplars);
    if !EncodableExemplars(p.exemplars) { ExemplarListErrors(p.exemplars); }
  }

  lemma SummaryPointErrors(p: SummaryDataPoint)
    requires !EncodableSummaryPoint(p)
    ensures Blame(false, EncodeSummaryPoint(p), BuildSummaryPoint(p))
  {
    hide EncodeAttributes, BuildKeyValues, EncodableAttributes;
    AttributesAgree(p.attributes);
    AttributeErrors(p.attributes);
  }

  predicate PointsMixed(ps: seq<NumberDataPoint>) {
    var first := FirstBad(EncodableNumberPoint, ps);
    first.Some? && HasTwoFaults(first.value)
  }

  predicate DataMixed(d: MetricData) {
    match d
    case Gauge(ps) => PointsMixed(ps)
    case Sum(ps, _, _) => PointsMixed(ps)
    case _ => false
  }

  predicate MetricMixed(m: Metric) {
    DataMixed(m.data)
  }

  // A scope's attributes come before its metrics, and the first bad metric decides.
  predicate ScopeMixed(sm: ScopeMetrics) {
    var first := FirstBad(EncodableMetric, sm.metrics);
    EncodableAttributes(sm.scope.attributes) && first.Some? && MetricMixed(first.value)
  }

  predicate ResourceMixed(rm: ResourceMetrics) {
    var first := FirstBad(EncodableScopeMetrics, rm.scopeMetrics);
    EncodableAttributes(rm.resource.attributes) && first.Some? && ScopeMixed(first.value)
  }

  // In the order of a traversal, the first thing that cannot be encoded is a
  // number point with a boolean value and another fault.
  predicate TreeMixed(data: seq<ResourceMetrics>) {
    var first := FirstBad(EncodableResourceMetrics, data);
    first.Some? && ResourceMixed(first.value)
  }

  lemma NumberPointsBlame(ps: seq<NumberDataPoint>)
    requires FirstBad(EncodableNumberPoint, ps).Some?
    ensures Blame(PointsMixed(ps), TryMap(EncodeNumberPoint, ps), TryMap(BuildNumberPoint, ps))
  {
    hide EncodeNumberPoint, BuildNumberPoint, EncodableNumberPoint, HasTwoFaults, TryMap;
    forall p | p in ps
      ensures EncodeNumberPoint(p).Ok? == BuildNumberPoint(p).Ok? == EncodableNumberPoint(p)
    {
      NumberPointAgrees(p);
    }
    ListBlame(EncodableNumberPoint, EncodeNumberPoint, BuildNumberPoint, ps);
    PointErrors(FirstBad(EncodableNumberPoint, ps).value);
  }

  lemma HistogramPointsBlame(ps: seq<HistogramDataPoint>)
    requires FirstBad(EncodableHistogramPoint, ps).Some?
    ensures Blame(false, TryMap(EncodeHistogramPoint, ps), TryMap(BuildHistogramPoint, ps))
  {
    hide EncodeHistogramPoint, BuildHistogramPoint, EncodableHistogramPoint, TryMap;
    forall p | p in ps
      ensures EncodeHistogramPoint(p).Ok? == BuildHistogramPoint(p).Ok? == EncodableHistogramPoint(p)
    {
      HistogramPointAgrees(p);
    }
    ListBlame(EncodableHistogramPoint, EncodeHistogramPoint, BuildHistogramPoint, ps);
    HistogramPointErrors(FirstBad(EncodableHistogramPoint, ps).value);
  }

  lemma ExponentialPointsBlame(ps: seq<ExponentialPoint>)
    requires FirstBad(EncodableExponentialPoint, ps).Some?
    ensures Blame(false, TryMap(EncodeExponentialPoint, ps), TryMap(BuildExponentialPoint, ps))
  {
    hide EncodeExponentialPoint, BuildExponentialPoint, EncodableExponentialPoint, TryMap;
    forall p | p in ps
      ensures EncodeExponentialPoint(p).Ok? == BuildExponentialPoint(p).Ok? == EncodableExponentialPoint(p)
    {
      ExponentialPointAgrees(p);
    }
    ListBlame(EncodableExponentialPoint, EncodeExponentialPoint, BuildExponentialPoint, ps);
    ExponentialPointErrors(FirstBad(EncodableExponentialPoint, ps).value);
  }

  lemma SummaryPointsBlame(ps: seq<SummaryDataPoint>)
    requires FirstBad(EncodableSummaryPoint, ps).Some?
    ensures Blame(false, TryMap(EncodeSummaryPoint, ps), TryMap(BuildSummaryPoint, ps))
  {
    hide EncodeSummaryPoint, BuildSummaryPoint, EncodableSummaryPoint, TryMap;
    forall p | p in ps
      ensures EncodeSummaryPoint(p).Ok? == BuildSummaryPoint(p).Ok? == EncodableSummaryPoint(p)
    {
      SummaryPointAgrees(p);
    }
    ListBlame(EncodableSummaryPoint, EncodeSummaryPoint, BuildSummaryPoint, ps);
    SummaryPointErrors(FirstBad(EncodableSummaryPoint, ps).value);
  }

  lemma MetricBlame(m: Metric)
    requires !EncodableMetric(m)
    ensures Blame(MetricMixed(m), EncodeMetric(m), BuildMetric(m))
  {
    hide TryMap, PointsMixed, EncodableNumberPoint, EncodableHistogramPoint, EncodableExponentialPoint,
         EncodableSummaryPoint, OmitEmpty;
    match m.data
    case Gauge(ps) => NumberPointsBlame(ps);
    case Sum(ps, _, _) => NumberPointsBlame(ps);
    case Histogram(ps, _) => HistogramPointsBlame(ps);
    case ExponentialHistogram(ps, _) => ExponentialPointsBlame(ps);
    case Summary(ps) => SummaryPointsBlame(ps);
  }

  lemma ScopeBlame(sm: ScopeMetrics)
    requires !EncodableScopeMetrics(sm)
    ensures Blame(ScopeMixed(sm), EncodeScopeMetrics(sm), BuildScopeMetrics(sm))
  {
    hide EncodeMetric, BuildMetric, EncodableMetric, MetricMixed, EncodeAttributes, BuildKeyValues,
         EncodableAttributes, TryMap, OmitEmpty;
    ScopeErrors(sm.scope);
    if EncodableAttributes(sm.scope.attributes) {
      forall m | m in sm.metrics
        ensures EncodeMetric(m).Ok? == BuildMetric(m).Ok? == EncodableMetric(m)
      {
        MetricAgrees(m);
      }
      ListBlame(EncodableMetric, EncodeMetric, BuildMetric, sm.metrics);
      MetricBlame(FirstBad(EncodableMetric, sm.metrics).value);
    }
  }

  lemma ScopeErrors(s: Scope)
    ensures EncodeScope(s).Ok? == BuildScope(s).Ok? == EncodableAttributes(s.attributes)
    ensures EncodeScope(s).Raised? ==> EncodeScope(s).error == BuildScope(s).error == UnsupportedAttribute
  {
    hide EncodeAttributes, BuildKeyValues, EncodableAttributes, OmitEmpty;
    AttributesAgree(s.attributes);
    AttributeErrors(s.attributes);
  }

  lemma ResourceErrors(r: Resource)
    ensures EncodeResource(r).Ok? == BuildResource(r).Ok? == EncodableAttributes(r.attributes)
    ensures EncodeResource(r).Raised? ==> EncodeResource(r).error == BuildResource(r).error == UnsupportedAttribute
  {
    hide EncodeAttributes, BuildKeyValues, EncodableAttributes, OmitEmpty;
    AttributesAgree(r.attributes);
    AttributeErrors(r.attributes);
  }

  lemma ResourceBlame(rm: ResourceMetrics)
    requires !EncodableResourceMetrics(rm)
    ensures Blame(ResourceMixed(rm), EncodeOneResourceMetrics(rm), BuildResourceMetrics(rm))
  {
    hide EncodeScopeMetrics, BuildScopeMetrics, EncodableScopeMetrics, ScopeMixed, EncodeResource, BuildResource,
         EncodableAttributes, TryMap, OmitEmpty;
    ResourceErrors(rm.resource);
    if EncodableAttributes(rm.resource.attributes) {
      forall sm | sm in rm.scopeMetrics
        ensures EncodeScopeMetrics(sm).Ok? == BuildScopeMetrics(sm).Ok? == EncodableScopeMetrics(sm)
      {
        ScopeMetricsAgrees(sm);
      }
      ListBlame(EncodableScopeMetrics, EncodeScopeMetrics, BuildScopeMetrics, rm.scopeMetrics);
      ScopeBlame(FirstBad(EncodableScopeMetrics, rm.scopeMetrics).value);
    }
  }

  // For a metrics tree that cannot be encoded, the two encoders raise the same
  // error exactly when the first thing in it that cannot be encoded is not a
  // number point with a boolean value and another fault.
  lemma MetricsErrors(data: seq<ResourceMetrics>)
    requires !forall rm | rm in data :: EncodableResourceMetrics(rm)
    ensures EncodeMetrics(data).Raised? && BuildMetrics(data).Raised?
    ensures EncodeMetrics(data).error == BuildMetrics(data).error <==> !TreeMixed(data)
  {
    hide EncodeOneResourceMetrics, BuildResourceMetrics, EncodableResourceMetrics, ResourceMixed, TryMap;
    forall rm | rm in data
      ensures EncodeOneResourceMetrics(rm).Ok? == BuildResourceMetrics(rm).Ok? == EncodableResourceMetrics(rm)
    {
      ResourceMetricsAgrees(rm);
    }
    ListBlame(EncodableResourceMetrics, EncodeOneResourceMetrics, BuildResourceMetrics, data);
    ResourceBlame(FirstBad(EncodableResourceMetrics, data).value);
  }

  // A gauge of one point: a boolean, with an attribute of no supported type.
  const FAULTY_POINT :=
    NumberDataPoint(0, BoolMeasurement(true), [Attribute("a", Unsupported)], None, [], 0)

  const FAULTY_TREE :=
    [ResourceMetrics(Resource([], 0),
                     [ScopeMetrics(Scope("", None, []), [Metric("", Gauge([FAULTY_POINT]), "", "")])])]

  // The errors do differ: the JSON encoder blames the boolean, the protobuf
  // encoder the attribute.
  lemma ErrorsCanDiffer()
    ensures EncodeMetrics(FAULTY_TREE) == Raised(BooleanPoint)
    ensures BuildMetrics(FAULTY_TREE) == Raised(UnsupportedAttribute)
  {
    hide OmitEmpty;
    var p, m := FAULTY_POINT, FAULTY_TREE[0].scopeMetrics[0].metrics[0];
    assert EncodeAttributes([]) == Ok([]);
    assert BuildAnyValue(Unsupported) == Raised(UnsupportedAttribute);
    assert BuildKeyValues(p.attributes) == Raised(UnsupportedAttribute);
    TryMapSingle(EncodeNumberPoint, p);
    TryMapSingle(BuildNumberPoint, p);
    TryMapSingle(EncodeMetric, m);
    TryMapSingle(BuildMetric, m);
    TryMapSingle(EncodeScopeMetrics, FAULTY_TREE[0].scopeMetrics[0]);
    TryMapSingle(BuildScopeMetrics, FAULTY_TREE[0].scopeMetrics[0]);
    TryMapSingle(EncodeOneResourceMetrics, FAULTY_TREE[0]);
    TryMapSingle(BuildResourceMetrics, FAULTY_TREE[0]);
  }

  // ---- logs and traces ----

  // Nothing but the type of an attribute value can be wrong.
  ghost predicate OnlyAttributes<J, M>(json: Result<J, TypeError>, built: Result<M, TypeError>) {
    && (json.Raised? ==> json.error == UnsupportedAttribute)
    && (built.Raised? ==> built.error == UnsupportedAttribute)
  }

  lemma {:induction false} ListOnlyAttributes<A, J, M>(encode: A -> Result<J, TypeError>,
                                                       build: A -> Result<M, TypeError>, xs: seq<A>)
    requires forall x | x in xs :: OnlyAttributes(encode(x), build(x))
    ensures OnlyAttributes(TryMap(encode, xs), TryMap(build, xs))
  {
    if xs != [] {
      assert OnlyAttributes(encode(xs[0]), build(xs[0]));
      ListOnlyAttributes(encode, build, xs[1..]);
    }
  }

  lemma LogRecordErrors(r: LogRecord)
    ensures OnlyAttributes(EncodeLogRecord(r), BuildLogRecord(r))
  {
    hide EncodeAnyValue, BuildAnyValue, EncodeAttributes, BuildKeyValues, OmitEmpty;
    ValueErrors(r.body);
    AttributeErrors(r.attributes);
  }

  lemma ScopeLogsErrors(sl: ScopeLogs)
    ensures OnlyAttributes(EncodeScopeLogs(sl), BuildScopeLogs(sl))
  {
    hide EncodeLogRecord, BuildLogRecord, EncodeScope, BuildScope, TryMap, OmitEmpty, EncodableAttributes;
    ScopeErrors(sl.scope);
    forall r | r in sl.logRecords ensures OnlyAttributes(EncodeLogRecord(r), BuildLogRecord(r)) {
      LogRecordErrors(r);
    }
    ListOnlyAttributes(EncodeLogRecord, BuildLogRecord, sl.logRecords);
  }

  lemma ResourceLogsErrors(rl: ResourceLogs)
    ensures OnlyAttributes(EncodeOneResourceLogs(rl), BuildResourceLogs(rl))
  {
    hide EncodeScopeLogs, BuildScopeLogs, EncodeResource, BuildResource, TryMap, OmitEmpty, EncodableAttributes;
    ResourceErrors(rl.resource);
    forall sl | sl in rl.scopeLogs ensures OnlyAttributes(EncodeScopeLogs(sl), BuildScopeLogs(sl)) {
      ScopeLogsErrors(sl);
    }
    ListOnlyAttributes(EncodeScopeLogs, BuildScopeLogs, rl.scopeLogs);
  }

  // Both encoders raise the same error for every logs tree that cannot be encoded.
  lemma LogsErrors(data: seq<ResourceLogs>)
    requires !forall rl | rl in data :: EncodableResourceLogs(rl)
    ensures EncodeLogs(data) == Raised(UnsupportedAttribute) && BuildLogs(data) == Raised(UnsupportedAttribute)
  {
    hide EncodeOneResourceLogs, BuildResourceLogs, TryMap, EncodableResourceLogs, ParseLogs;
    LogsEncodersAgree(data);
    forall rl | rl in data ensures OnlyAttributes(EncodeOneResourceLogs(rl), BuildResourceLogs(rl)) {
      ResourceLogsErrors(rl);
    }
    ListOnlyAttributes(EncodeOneResourceLogs, BuildResourceLogs, data);
  }

  lemma SpanErrors(s: Span)
    ensures OnlyAttributes(EncodeSpan(s), BuildSpan(s))
  {
    hide EncodeAttributes, BuildKeyValues, OmitEmpty, TryMap;
    AttributeErrors(s.attributes);
    forall e | e in s.events ensures OnlyAttributes(EncodeSpanEvent(e), BuildSpanEvent(e)) {
      AttributeErrors(e.attributes);
    }
    forall l | l in s.links ensures OnlyAttributes(EncodeSpanLink(l), BuildSpanLink(l)) {
      AttributeErrors(l.attributes);
    }
    ListOnlyAttributes(EncodeSpanEvent, BuildSpanEvent, s.events);
    ListOnlyAttributes(EncodeSpanLink, BuildSpanLink, s.links);
  }

  lemma ScopeSpansErrors(ss: ScopeSpans)
    ensures OnlyAttributes(EncodeScopeSpans(ss), BuildScopeSpans(ss))
  {
    hide EncodeSpan, BuildSpan, EncodeScope, BuildScope, TryMap, OmitEmpty, EncodableAttributes;
    ScopeErrors(ss.scope);
    forall s | s in ss.spans ensures OnlyAttributes(EncodeSpan(s), BuildSpan(s)) {
      SpanErrors(s);
    }
    ListOnlyAttributes(EncodeSpan, BuildSpan, ss.spans);
  }

  lemma ResourceSpansErrors(rs: ResourceSpans)
    ensures OnlyAttributes(EncodeOneResourceSpans(rs), BuildResourceSpans(rs))
  {
    hide EncodeScopeSpans, BuildScopeSpans, EncodeResource, BuildResource, TryMap, OmitEmpty, EncodableAttributes;
    ResourceErrors(rs.resource);
    forall ss | ss in rs.scopeSpans ensures OnlyAttributes(EncodeScopeSpans(ss), BuildScopeSpans(ss)) {
      ScopeSpansErrors(ss);
    }
    ListOnlyAttributes(EncodeScopeSpans, BuildScopeSpans, rs.scopeSpans);
  }

  // And for every traces tree.
  lemma TracesErrors(data: seq<ResourceSpans>)
    requires !forall rs | rs in data :: EncodableResourceSpans(rs)
    ensures EncodeTraces(data) == Raised(UnsupportedAttribute) && BuildTraces(data) == Raised(UnsupportedAttribute)
  {
    hide EncodeOneResourceSpans, BuildResourceSpans, TryMap, EncodableResourceSpans, ParseTraces;
    TracesEncodersAgree(data);
    forall rs | rs in data ensures OnlyAttributes(EncodeOneResourceSpans(rs), BuildResourceSpans(rs)) {
      ResourceSpansErrors(rs);
    }
    ListOnlyAttributes(EncodeOneResourceSpans, BuildResourceSpans, data);
  }
}

// Metrics: the document parses as the message, for all five kinds of data.
module MetricsAgreement {
  import opened Wrappers
  import opened Model
  import opened Json
  import opened JsonEncoder
  import opened ProtobufEncoder
  import opened ProtoJson
  import opened Encodable
  import opened Agreement

  // ---- the value of a point ----

  function AsIntJson(value: Measurement): Json {
    if value.IntMeasurement? then U64Text(value.i) else Null
  }

  function AsDoubleJson(value: Measurement): Json {
    if value.FloatMeasurement? then Num(value.d) else Null
  }

  // Exactly one member of the oneof, and a measured zero is not an absent value.
  lemma NumberField(value: Measurement)
    requires !value.BoolMeasurement?
    ensures ParseNumber(Kept(AsIntJson(value)), Kept(AsDoubleJson(value))) == Some(BuildNumber(value))
  {
    if value.IntMeasurement? { IntegerReads(value.i, -0x8000_0000_0000_0000, 0x7FFF_FFFF_FFFF_FFFF); }
  }

  // ---- exemplars ----

  lemma ExemplarMembers(filtered: Json, time: Json, span: Json, trace: Json, value: Measurement)
    requires !value.BoolMeasurement?
    ensures var o := OmitEmpty(map[Key.filteredAttributes := filtered, Key.timeUnixNano := time,
                                   NumberKey(value) := NumberJson(value), Key.spanId := span,
                                   Key.traceId := trace]);
      (Get(o, Key.filteredAttributes), Get(o, Key.timeUnixNano), Get(o, Key.spanId), Get(o, Key.traceId),
       Get(o, Key.asInt), Get(o, Key.asDouble))
      == (Kept(filtered), Kept(time), Kept(span), Kept(trace), Kept(AsIntJson(value)),
          Kept(AsDoubleJson(value)))
  {
    hide Kept, OmitEmpty, U64Text;
  }

  lemma ExemplarAgrees(e: Exemplar)
    ensures Agree(EncodableExemplar(e), EncodeExemplar(e), BuildExemplar(e), ParseExemplar)
  {
    hide EncodeAttributes, BuildKeyValues, EncodableAttributes, ParseAttributes, TryMap, ParseList, Kept,
         OmitEmpty, Get, U64Text, ParseU64, OrNone, ParseU32, ParseI32, OptionalId, ParseId, NumberJson, ParseNumber,
         AsIntJson, AsDoubleJson, BuildNumber;
    AttributesAgree(e.filteredAttributes);
    U64Field(e.timeUnixNano);
    OptionalIdField(e.spanId);
    OptionalIdField(e.traceId);
    if EncodableExemplar(e) {
      NumberField(e.value);
      ExemplarMembers(Arr(EncodeAttributes(e.filteredAttributes).value), U64Text(e.timeUnixNano),
                      OptionalId(e.spanId), OptionalId(e.traceId), e.value);
    }
  }

  lemma ExemplarsAgree(es: seq<Exemplar>)
    ensures AgreeList(EncodableExemplars(es), TryMap(EncodeExemplar, es), TryMap(BuildExemplar, es), ParseExemplar)
  {
    forall e | e in es
      ensures Agree(EncodableExemplar(e), EncodeExemplar(e), BuildExemplar(e), ParseExemplar)
    {
      ExemplarAgrees(e);
    }
    ListAgrees(EncodableExemplar, EncodeExemplar, BuildExemplar, ParseExemplar, es);
    assert EncodableExemplars(es) <==> forall e | e in es :: EncodableExemplar(e);
  }

  // ---- data points ----

  lemma NumberPointMembers(attributes: Json, start: Json, time: Json, flags: Json, exemplars: Json,
                           value: Measurement)
    requires !value.BoolMeasurement?
    ensures var o := OmitEmpty(map[Key.attributes := attributes, Key.startTimeUnixNano := start,
                                   Key.timeUnixNano := time, Key.flags := flags, Key.exemplars := exemplars,
                                   NumberKey(value) := NumberJson(value)]);
      (Get(o, Key.attributes), Get(o, Key.startTimeUnixNano), Get(o, Key.timeUnixNano), Get(o, Key.flags),
       Get(o, Key.exemplars), Get(o, Key.asInt), Get(o, Key.asDouble))
      == (Kept(attributes), Kept(start), Kept(time), Kept(flags), Kept(exemplars), Kept(AsIntJson(value)),
          Kept(AsDoubleJson(value)))
  {
    hide Kept, OmitEmpty, U64Text;
  }

  lemma NumberPointAgrees(p: NumberDataPoint)
    ensures Agree(EncodableNumberPoint(p), EncodeNumberPoint(p), BuildNumberPoint(p), ParseNumberPoint)
  {
    hide EncodeAttributes, BuildKeyValues, EncodableAttributes, ParseAttributes, TryMap, ParseList, Kept,
         OmitEmpty, Get, U64Text, ParseU64, OrNone, ParseU32, ParseI32, OptionalU64, EncodableExemplars, NumberJson,
         ParseNumber, AsIntJson, AsDoubleJson,
         BuildNumber;
    AttributesAgree(p.attributes);
    ExemplarsAgree(p.exemplars);
    OptionalU64Field(p.startTimeUnixNano);
    U64Field(p.timeUnixNano);
    OrNoneField(p.flags);
    if EncodableNumberPoint(p) {
      NumberField(p.value);
      NumberPointMembers(Arr(EncodeAttributes(p.attributes).value), OptionalU64(p.startTimeUnixNano),
                         U64Text(p.timeUnixNano), OrNone(p.flags), Arr(TryMap(EncodeExemplar, p.exemplars).value),
                         p.value);
    }
  }

  lemma HistogramPointMembers(attributes: Json, start: Json, time: Json, count: Json, sum: Json, counts: Json,
                              bounds: Json, flags: Json, exemplars: Json, min: Json, max: Json)
    ensures var o := OmitEmpty(map[Key.attributes := attributes, Key.startTimeUnixNano := start,
                                   Key.timeUnixNano := time, Key.count := count, Key.sum := sum,
                                   Key.bucketCounts := counts, Key.explicitBounds := bounds,
                                   Key.flags := flags, Key.exemplars := exemplars, Key.min := min,
                                   Key.max := max]);
      (Get(o, Key.attributes), Get(o, Key.startTimeUnixNano), Get(o, Key.timeUnixNano), Get(o, Key.count),
       Get(o, Key.sum), Get(o, Key.bucketCounts), Get(o, Key.explicitBounds), Get(o, Key.flags),
       Get(o, Key.exemplars), Get(o, Key.min), Get(o, Key.max))
      == (Kept(attributes), Kept(start), Kept(time), Kept(count), Kept(sum), Kept(counts), Kept(bounds),
          Kept(flags), Kept(exemplars), Kept(min), Kept(max))
  {
    hide Kept, OmitEmpty;
  }

  lemma HistogramPointAgrees(p: HistogramDataPoint)
    ensures Agree(EncodableHistogramPoint(p), EncodeHistogramPoint(p), BuildHistogramPoint(p), ParseHistogramPoint)
  {
    hide EncodeAttributes, BuildKeyValues, EncodableAttributes, ParseAttributes, TryMap, ParseList, Kept,
         OmitEmpty, Get, U64Text, ParseU64, OrNone, ParseU32, ParseI32, OptionalU64, EncodableExemplars,
         OptionalDouble, ParseOptionalDouble, U64Texts, Doubles;
    AttributesAgree(p.attributes);
    ExemplarsAgree(p.exemplars);
    OptionalU64Field(p.startTimeUnixNano);
    U64Field(p.timeUnixNano);
    U64Field(p.count);
    OptionalDoubleField(p.sum);
    U64ListField(p.bucketCounts);
    DoubleListField(p.explicitBounds);
    OrNoneField(p.flags);
    OptionalDoubleField(p.min);
    OptionalDoubleField(p.max);
    if EncodableHistogramPoint(p) {
      HistogramPointMembers(Arr(EncodeAttributes(p.attributes).value), OptionalU64(p.startTimeUnixNano),
                            U64Text(p.timeUnixNano), U64Text(p.count), OptionalDouble(p.sum),
                            Arr(U64Texts(p.bucketCounts)), Arr(Doubles(p.explicitBounds)), OrNone(p.flags),
                            Arr(TryMap(EncodeExemplar, p.exemplars).value), OptionalDouble(p.min),
                            OptionalDouble(p.max));
    }
  }

  // A side of an exponential histogram is present exactly when it is not all default.
  lemma BucketsAgree(b: Buckets)
    ensures ParseOptional(ParseBuckets, Kept(EncodeBuckets(b))) == Some(BuildBuckets(b))
    ensures BucketsIsEmpty(b) <==> EncodeBuckets(b) == Obj(map[])
  {
    hide U64Texts, ParseU64, ParseI32, OrNone;
    var offset, counts := OrNone(b.offset), Arr(U64Texts(b.bucketCounts));
    U64ListField(b.bucketCounts);
    OrNoneField(b.offset);
    OffsetEmpty(b);
    OmitEmptyIsEmpty(map[Key.offset := offset, Key.bucketCounts := counts]);
    var o := EncodeBuckets(b).fields;
    assert (Get(o, Key.offset), Get(o, Key.bucketCounts)) == (Kept(offset), Kept(counts));
  }

  lemma OffsetEmpty(b: Buckets)
    ensures IsEmpty(OrNone(b.offset)) <==> b.offset == 0
    ensures IsEmpty(Arr(U64Texts(b.bucketCounts))) <==> b.bucketCounts == []
  {
  }

  // A zero count is left out, and a left-out count is zero.
  lemma ZeroCountField(n: U64)
    ensures ParseU64(Kept(if n != 0 then U64Text(n) else Null)) == Some(n)
  {
    U64Field(n);
  }

  lemma ExponentialPointMembers(attributes: Json, start: Json, time: Json, count: Json, sum: Json, scale: Json,
                                zeroCount: Json, positive: Json, negative: Json, min: Json, max: Json,
                                flags: Json, exemplars: Json, threshold: Json)
    ensures var o := OmitEmpty(map[Key.attributes := attributes, Key.startTimeUnixNano := start,
                                   Key.timeUnixNano := time, Key.count := count, Key.sum := sum,
                                   Key.scale := scale, Key.zeroCount := zeroCount, Key.positive := positive,
                                   Key.negative := negative, Key.min := min, Key.max := max,
                                   Key.flags := flags, Key.exemplars := exemplars,
                                   Key.zeroThreshold := threshold]);
      (Get(o, Key.attributes), Get(o, Key.startTimeUnixNano), Get(o, Key.timeUnixNano), Get(o, Key.count),
       Get(o, Key.sum), Get(o, Key.scale), Get(o, Key.zeroCount), Get(o, Key.positive), Get(o, Key.negative),
       Get(o, Key.min), Get(o, Key.max), Get(o, Key.flags), Get(o, Key.exemplars), Get(o, Key.zeroThreshold))
      == (Kept(attributes), Kept(start), Kept(time), Kept(count), Kept(sum), Kept(scale), Kept(zeroCount),
          Kept(positive), Kept(negative), Kept(min), Kept(max), Kept(flags), Kept(exemplars), Kept(threshold))
  {
    hide Kept, OmitEmpty;
  }

  lemma ExponentialPointAgrees(p: ExponentialPoint)
    ensures Agree(EncodableExponentialPoint(p), EncodeExponentialPoint(p), BuildExponentialPoint(p),
                  ParseExponentialPoint)
  {
    hide EncodeAttributes, BuildKeyValues, EncodableAttributes, ParseAttributes, TryMap, ParseList, Kept,
         OmitEmpty, Get, U64Text, ParseU64, OrNone, ParseU32, ParseI32, OptionalU64, EncodableExemplars,
         OptionalDouble, ParseOptionalDouble, ImplicitDouble,
         ParseDouble, ParseOptional, EncodeBuckets, BuildBuckets;
    var zeroCount := if p.zeroCount != 0 then U64Text(p.zeroCount) else Null;
    AttributesAgree(p.attributes);
    ExemplarsAgree(p.exemplars);
    OptionalU64Field(p.startTimeUnixNano);
    U64Field(p.timeUnixNano);
    U64Field(p.count);
    OptionalDoubleField(p.sum);
    OrNoneField(p.scale);
    ZeroCountField(p.zeroCount);
    BucketsAgree(p.positive);
    BucketsAgree(p.negative);
    OptionalDoubleField(p.min);
    OptionalDoubleField(p.max);
    OrNoneField(p.flags);
    ImplicitDoubleField(p.zeroThreshold);
    if EncodableExponentialPoint(p) {
      ExponentialPointMembers(Arr(EncodeAttributes(p.attributes).value), OptionalU64(p.startTimeUnixNano),
                              U64Text(p.timeUnixNano), U64Text(p.count), OptionalDouble(p.sum), OrNone(p.scale),
                              zeroCount, EncodeBuckets(p.positive), EncodeBuckets(p.negative),
                              OptionalDouble(p.min), OptionalDouble(p.max), OrNone(p.flags),
                              Arr(TryMap(EncodeExemplar, p.exemplars).value),
                              ImplicitDouble(p.zeroThreshold));
    }
  }

  lemma {:induction false} QuantileElements(qs: seq<ValueAtQuantile>)
    ensures Traverse(Element(ParseQuantile), EncodeQuantiles(qs)) == Some(BuildQuantiles(qs))
  {
    if qs == [] {
      assert EncodeQuantiles(qs) == [] && BuildQuantiles(qs) == [];
    } else {
      var o: Object := map[Key.quantile := Num(qs[0].quantile), Key.value := Num(qs[0].value)];
      assert EncodeQuantiles(qs)[0] == Obj(o) && o.Keys == {Key.quantile, Key.value};
      assert ParseQuantile(Obj(o)) == Some(P.ValueAtQuantile(qs[0].quantile, qs[0].value));
      QuantileElements(qs[1..]);
      assert EncodeQuantiles(qs)[1..] == EncodeQuantiles(qs[1..]);
      assert BuildQuantiles(qs) == [P.ValueAtQuantile(qs[0].quantile, qs[0].value)] + BuildQuantiles(qs[1..]);
    }
  }

  lemma QuantilesAgree(qs: seq<ValueAtQuantile>)
    ensures ParseList(ParseQuantile, Kept(Arr(EncodeQuantiles(qs)))) == Some(BuildQuantiles(qs))
  {
    KeptList(ParseQuantile, EncodeQuantiles(qs));
    QuantileElements(qs);
  }

  lemma SummaryPointMembers(attributes: Json, start: Json, time: Json, count: Json, sum: Json, quantiles: Json,
                            flags: Json)
    ensures var o := OmitEmpty(map[Key.attributes := attributes, Key.startTimeUnixNano := start,
                                   Key.timeUnixNano := time, Key.count := count, Key.sum := sum,
                                   Key.quantileValues := quantiles, Key.flags := flags]);
      (Get(o, Key.attributes), Get(o, Key.startTimeUnixNano), Get(o, Key.timeUnixNano), Get(o, Key.count),
       Get(o, Key.sum), Get(o, Key.quantileValues), Get(o, Key.flags))
      == (Kept(attributes), Kept(start), Kept(time), Kept(count), Kept(sum), Kept(quantiles), Kept(flags))
  {
    hide Kept, OmitEmpty;
  }

  lemma SummaryPointAgrees(p: SummaryDataPoint)
    ensures Agree(EncodableSummaryPoint(p), EncodeSummaryPoint(p), BuildSummaryPoint(p), ParseSummaryPoint)
  {
    hide EncodeAttributes, BuildKeyValues, EncodableAttributes, ParseAttributes, TryMap, ParseList, Kept,
         OmitEmpty, Get, U64Text, ParseU64, OrNone, ParseU32, ParseI32, OptionalU64, ImplicitDouble, ParseDouble,
         EncodeQuantiles, BuildQuantiles;
    AttributesAgree(p.attributes);
    OptionalU64Field(p.startTimeUnixNano);
    U64Field(p.timeUnixNano);
    U64Field(p.count);
    ImplicitDoubleField(p.sum);
    QuantilesAgree(p.quantileValues);
    OrNoneField(p.flags);
    if EncodableSummaryPoint(p) {
      SummaryPointMembers(Arr(EncodeAttributes(p.attributes).value), OptionalU64(p.startTimeUnixNano),
                          U64Text(p.timeUnixNano), U64Text(p.count), ImplicitDouble(p.sum),
                          Arr(EncodeQuantiles(p.quantileValues)), OrNone(p.flags));
    }
  }

  // ---- metric data ----

  // The body of a metric, under the one key that names its kind.
  ghost predicate DataAgrees(d: MetricData) {
    var json, built := EncodeMetricData(d), BuildMetricData(d);
    && json.Ok? == built.Ok? == EncodableMetricData(d)
    && (json.Ok? && built.Ok? ==>
          !IsEmpty(json.value) && ParseDataCase(DataKey(d), json.value) == Some(built.value))
  }

  lemma GaugeAgrees(ps: seq<NumberDataPoint>)
    ensures DataAgrees(Gauge(ps))
  {
    hide TryMap, ParseList, EncodeNumberPoint, BuildNumberPoint, ParseNumberPoint, EncodableNumberPoint;
    forall p | p in ps
      ensures Agree(EncodableNumberPoint(p), EncodeNumberPoint(p), BuildNumberPoint(p), ParseNumberPoint)
    {
      NumberPointAgrees(p);
    }
    ListAgrees(EncodableNumberPoint, EncodeNumberPoint, BuildNumberPoint, ParseNumberPoint, ps);
    var points := TryMap(EncodeNumberPoint, ps);
    if points.Ok? { PointsMembers(Arr(points.value)); }
  }

  lemma SumAgrees(ps: seq<NumberDataPoint>, t: Temporality, monotonic: bool)
    ensures DataAgrees(Sum(ps, t, monotonic))
  {
    hide TryMap, ParseList, Get, EncodeNumberPoint, BuildNumberPoint, ParseNumberPoint, EncodableNumberPoint;
    forall p | p in ps
      ensures Agree(EncodableNumberPoint(p), EncodeNumberPoint(p), BuildNumberPoint(p), ParseNumberPoint)
    {
      NumberPointAgrees(p);
    }
    ListAgrees(EncodableNumberPoint, EncodeNumberPoint, BuildNumberPoint, ParseNumberPoint, ps);
    var points := TryMap(EncodeNumberPoint, ps);
    if points.Ok? { SumMembers(Arr(points.value), Int(t.Number()), Bool(monotonic)); }
  }

  lemma HistogramAgrees(ps: seq<HistogramDataPoint>, t: Temporality)
    ensures DataAgrees(Histogram(ps, t))
  {
    hide TryMap, ParseList, EncodeHistogramPoint, BuildHistogramPoint, ParseHistogramPoint, EncodableHistogramPoint;
    forall p | p in ps
      ensures Agree(EncodableHistogramPoint(p), EncodeHistogramPoint(p), BuildHistogramPoint(p), ParseHistogramPoint)
    {
      HistogramPointAgrees(p);
    }
    ListAgrees(EncodableHistogramPoint, EncodeHistogramPoint, BuildHistogramPoint, ParseHistogramPoint, ps);
    var points := TryMap(EncodeHistogramPoint, ps);
    if points.Ok? { TemporalMembers(Arr(points.value), Int(t.Number())); }
  }

  lemma ExponentialHistogramAgrees(ps: seq<ExponentialPoint>, t: Temporality)
    ensures DataAgrees(ExponentialHistogram(ps, t))
  {
    hide TryMap, ParseList, EncodeExponentialPoint, BuildExponentialPoint, ParseExponentialPoint,
         EncodableExponentialPoint;
    forall p | p in ps
      ensures Agree(EncodableExponentialPoint(p), EncodeExponentialPoint(p), BuildExponentialPoint(p),
                    ParseExponentialPoint)
    {
      ExponentialPointAgrees(p);
    }
    ListAgrees(EncodableExponentialPoint, EncodeExponentialPoint, BuildExponentialPoint, ParseExponentialPoint, ps);
    var points := TryMap(EncodeExponentialPoint, ps);
    if points.Ok? { TemporalMembers(Arr(points.value), Int(t.Number())); }
  }

  lemma SummaryAgrees(ps: seq<SummaryDataPoint>)
    ensures DataAgrees(Summary(ps))
  {
    hide TryMap, ParseList, EncodeSummaryPoint, BuildSummaryPoint, ParseSummaryPoint, EncodableSummaryPoint;
    forall p | p in ps
      ensures Agree(EncodableSummaryPoint(p), EncodeSummaryPoint(p), BuildSummaryPoint(p), ParseSummaryPoint)
    {
      SummaryPointAgrees(p);
    }
    ListAgrees(EncodableSummaryPoint, EncodeSummaryPoint, BuildSummaryPoint, ParseSummaryPoint, ps);
    var points := TryMap(EncodeSummaryPoint, ps);
    if points.Ok? { PointsMembers(Arr(points.value)); }
  }

  lemma MetricDataAgrees(d: MetricData)
    ensures DataAgrees(d)
  {
    hide DataAgrees;
    match d
    case Gauge(ps) => GaugeAgrees(ps);
    case Sum(ps, t, monotonic) => SumAgrees(ps, t, monotonic);
    case Histogram(ps, t) => HistogramAgrees(ps, t);
    case ExponentialHistogram(ps, t) => ExponentialHistogramAgrees(ps, t);
    case Summary(ps) => SummaryAgrees(ps);
  }

  lemma PointsMembers(points: Json)
    ensures var o: Object := map[Key.dataPoints := points];
      Get(o, Key.dataPoints) == points && o != map[] && o.Keys <= {Key.dataPoints}
  {
    var o: Object := map[Key.dataPoints := points];
    assert Key.dataPoints in o;
  }

  lemma TemporalMembers(points: Json, temporality: Json)
    ensures var o: Object := map[Key.dataPoints := points, Key.aggregationTemporality := temporality];
      && Get(o, Key.dataPoints) == points && Get(o, Key.aggregationTemporality) == temporality
      && o != map[] && o.Keys <= {Key.dataPoints, Key.aggregationTemporality}
  {
    var o: Object := map[Key.dataPoints := points, Key.aggregationTemporality := temporality];
    assert Key.dataPoints in o;
  }

  lemma SumMembers(points: Json, temporality: Json, monotonic: Json)
    ensures var o: Object := map[Key.dataPoints := points, Key.aggregationTemporality := temporality,
                                 Key.isMonotonic := monotonic];
      && Get(o, Key.dataPoints) == points && Get(o, Key.aggregationTemporality) == temporality
      && Get(o, Key.isMonotonic) == monotonic
      && o != map[] && o.Keys <= {Key.dataPoints, Key.aggregationTemporality, Key.isMonotonic}
  {
    var o: Object := map[Key.dataPoints := points, Key.aggregationTemporality := temporality,
                         Key.isMonotonic := monotonic];
    assert Key.dataPoints in o;
  }

  // A metric document has its texts and exactly one data member.
  lemma MetricMembers(name: Json, description: Json, unit: Json, d: MetricData, data: Json)
    requires !IsEmpty(data)
    ensures var o := OmitEmpty(map[Key.name := name, Key.description := description, Key.unit := unit,
                                   DataKey(d) := data]);
      && (Get(o, Key.name), Get(o, Key.description), Get(o, Key.unit))
           == (Kept(name), Kept(description), Kept(unit))
      && o.Keys <= {Key.name, Key.description, Key.unit} + DATA_KEYS
      && ParseMetricData(o) == ParseDataCase(DataKey(d), data)
  {
    hide ParseGauge, ParseSum, ParseHistogram, ParseExponentialHistogram, ParseSummary, ParseDataCase;
    var k := DataKey(d);
    var o := OmitEmpty(map[Key.name := name, Key.description := description, Key.unit := unit, k := data]);
    assert Get(o, k) == data;
    var picked: Object := map j | j in o && j in DATA_KEYS :: o[j];
    assert k in picked && picked.Keys == {k};
    assert SoleKey(picked) == Some(k);
  }

  lemma MetricAgrees(m: Metric)
    ensures Agree(EncodableMetric(m), EncodeMetric(m), BuildMetric(m), ParseMetric)
  {
    hide EncodeMetricData, BuildMetricData, EncodableMetricData, ParseMetricData, ParseDataCase, Kept, OmitEmpty,
         IsEmpty, Get;
    MetricDataAgrees(m.data);
    TextField(m.name);
    TextField(m.description);
    TextField(m.unit);
    if EncodableMetric(m) {
      MetricMembers(Str(m.name), Str(m.description), Str(m.unit), m.data, EncodeMetricData(m.data).value);
    }
  }

  // ---- envelopes ----

  lemma ScopeMetricsAgrees(x: ScopeMetrics)
    ensures Agree(EncodableScopeMetrics(x), EncodeScopeMetrics(x), BuildScopeMetrics(x), ParseScopeMetrics)
  {
    hide EncodeScope, BuildScope, ParseScope, EncodableAttributes, TryMap, ParseList, ParseOptional, Get, OmitEmpty,
         EncodeMetric, BuildMetric, ParseMetric, EncodableMetric;
    ScopeAgrees(x.scope);
    forall y | y in x.metrics ensures Agree(EncodableMetric(y), EncodeMetric(y), BuildMetric(y), ParseMetric) {
      MetricAgrees(y);
    }
    EnvelopeAgrees(Key.scope, EncodableAttributes(x.scope.attributes), EncodeScope(x.scope), BuildScope(x.scope),
                   ParseScope,
                   Key.metrics, EncodableMetric, EncodeMetric, BuildMetric, ParseMetric, x.metrics);
  }

  lemma ResourceMetricsAgrees(x: ResourceMetrics)
    ensures Agree(EncodableResourceMetrics(x), EncodeOneResourceMetrics(x), BuildResourceMetrics(x),
                  ParseResourceMetrics)
  {
    hide EncodeResource, BuildResource, ParseResource, EncodableAttributes, TryMap, ParseList, ParseOptional, Get,
         OmitEmpty,
         EncodeScopeMetrics, BuildScopeMetrics, ParseScopeMetrics, EncodableScopeMetrics;
    ResourceAgrees(x.resource);
    forall y | y in x.scopeMetrics
      ensures Agree(EncodableScopeMetrics(y), EncodeScopeMetrics(y), BuildScopeMetrics(y), ParseScopeMetrics)
    {
      ScopeMetricsAgrees(y);
    }
    EnvelopeAgrees(Key.resource, EncodableAttributes(x.resource.attributes), EncodeResource(x.resource),
                   BuildResource(x.resource), ParseResource,
         Key.scopeMetrics, EncodableScopeMetrics, EncodeScopeMetrics, BuildScopeMetrics, ParseScopeMetrics,
         x.scopeMetrics);
  }

  // The encoders agree on every metrics tree: they raise on the same trees,
  // and otherwise the document is the message.
  lemma {:induction false} MetricsEncodersAgree(data: seq<ResourceMetrics>)
    ensures Agree(forall x | x in data :: EncodableResourceMetrics(x), EncodeMetrics(data), BuildMetrics(data),
                  ParseMetrics)
  {
    hide TryMap, ParseList, EncodeOneResourceMetrics, BuildResourceMetrics, ParseResourceMetrics,
         EncodableResourceMetrics;
    forall x | x in data
      ensures Agree(EncodableResourceMetrics(x), EncodeOneResourceMetrics(x), BuildResourceMetrics(x),
                    ParseResourceMetrics)
    {
      ResourceMetricsAgrees(x);
    }
    RequestAgrees(Key.resourceMetrics, EncodableResourceMetrics, EncodeOneResourceMetrics, BuildResourceMetrics,
                  ParseResourceMetrics, data);
  }
}

// Traces: the document parses as the message, with events, links and a status
// that may be absent, default or set.
module TracesAgreement {
  import opened Wrappers
  import opened Text
  import opened Model
  import opened Json
  import opened JsonEncoder
  import opened ProtobufEncoder
  import opened ProtoJson
  import opened Encodable
  import opened Agreement

  // ---- events and links ----

  lemma SpanEventMembers(time: Json, name: Json, attributes: Json)
    ensures var o := OmitEmpty(map[Key.timeUnixNano := time, Key.name := name, Key.attributes := attributes]);
      (Get(o, Key.timeUnixNano), Get(o, Key.name), Get(o, Key.attributes))
      == (Kept(time), Kept(name), Kept(attributes))
  {
    hide Kept, OmitEmpty;
  }

  lemma SpanEventAgrees(e: SpanEvent)
    ensures Agree(EncodableSpanEvent(e), EncodeSpanEvent(e), BuildSpanEvent(e), ParseSpanEvent)
  {
    hide EncodeAttributes, BuildKeyValues, EncodableAttributes, ParseAttributes, TryMap, ParseList, Kept,
         OmitEmpty, Get, U64Text, ParseU64, OrNone, ParseU32, ParseI32, ParseText;
    AttributesAgree(e.attributes);
    U64Field(e.timeUnixNano);
    TextField(e.name);
    if EncodableSpanEvent(e) {
      SpanEventMembers(U64Text(e.timeUnixNano), Str(e.name), Arr(EncodeAttributes(e.attributes).value));
    }
  }

  lemma SpanLinkMembers(traceId: Json, spanId: Json, state: Json, flags: Json, attributes: Json)
    ensures var o := OmitEmpty(map[Key.traceId := traceId, Key.spanId := spanId, Key.traceState := state,
                                   Key.flags := flags, Key.attributes := attributes]);
      (Get(o, Key.traceId), Get(o, Key.spanId), Get(o, Key.traceState), Get(o, Key.flags),
       Get(o, Key.attributes))
      == (Kept(traceId), Kept(spanId), Kept(state), Kept(flags), Kept(attributes))
  {
    hide Kept, OmitEmpty;
  }

  lemma SpanLinkAgrees(l: SpanLink)
    ensures Agree(EncodableSpanLink(l), EncodeSpanLink(l), BuildSpanLink(l), ParseSpanLink)
  {
    hide EncodeAttributes, BuildKeyValues, EncodableAttributes, ParseAttributes, TryMap, ParseList, Kept,
         OmitEmpty, Get, U64Text, ParseU64, OrNone, ParseU32, ParseI32, ParseText, ParseId, HexId;
    AttributesAgree(l.attributes);
    IdField(l.traceId);
    IdField(l.spanId);
    TextField(l.traceState);
    OrNoneField(l.flags);
    if EncodableSpanLink(l) {
      SpanLinkMembers(Str(HexId(l.traceId)), Str(HexId(l.spanId)), Str(l.traceState), OrNone(l.flags),
                      Arr(EncodeAttributes(l.attributes).value));
    }
  }

  lemma SpanEventsAgree(es: seq<SpanEvent>)
    ensures AgreeList(forall e | e in es :: EncodableSpanEvent(e), TryMap(EncodeSpanEvent, es),
                      TryMap(BuildSpanEvent, es), ParseSpanEvent)
  {
    hide EncodeSpanEvent, BuildSpanEvent, ParseSpanEvent, EncodableSpanEvent;
    forall e | e in es
      ensures Agree(EncodableSpanEvent(e), EncodeSpanEvent(e), BuildSpanEvent(e), ParseSpanEvent)
    {
      SpanEventAgrees(e);
    }
    ListAgrees(EncodableSpanEvent, EncodeSpanEvent, BuildSpanEvent, ParseSpanEvent, es);
  }

  lemma SpanLinksAgree(ls: seq<SpanLink>)
    ensures AgreeList(forall l | l in ls :: EncodableSpanLink(l), TryMap(EncodeSpanLink, ls),
                      TryMap(BuildSpanLink, ls), ParseSpanLink)
  {
    hide EncodeSpanLink, BuildSpanLink, ParseSpanLink, EncodableSpanLink;
    forall l | l in ls
      ensures Agree(EncodableSpanLink(l), EncodeSpanLink(l), BuildSpanLink(l), ParseSpanLink)
    {
      SpanLinkAgrees(l);
    }
    ListAgrees(EncodableSpanLink, EncodeSpanLink, BuildSpanLink, ParseSpanLink, ls);
  }

  // ---- spans ----

  // A status is on the wire exactly when it carries a code or a message.
  lemma StatusAgrees(s: Option<Status>)
    ensures ParseOptional(ParseStatus, Kept(EncodeStatus(s))) == Some(BuildStatus(s))
    ensures s.Some? ==> (BuildStatus(s).None? <==> EncodeStatus(s) == Obj(map[]))
  {
    if s.Some? {
      var code, message := OrNone(s.value.code.Number()), Str(s.value.message);
      var members: Object := map[Key.code := code, Key.message := message];
      OmitEmptyIsEmpty(members);
      var o := OmitEmpty(members);
      assert (Get(o, Key.code), Get(o, Key.message)) == (Kept(code), Kept(message));
    }
  }

  // The members of a span document: its ids, names and times, and the rest.
  lemma SpanScalars(traceId: Json, spanId: Json, parent: Json, name: Json, kind: Json, start: Json, end: Json,
                    state: Json, flags: Json, attributes: Json, events: Json, links: Json, status: Json)
    ensures var o := OmitEmpty(map[Key.traceId := traceId, Key.spanId := spanId, Key.parentSpanId := parent,
                                   Key.name := name, Key.kind := kind, Key.startTimeUnixNano := start,
                                   Key.endTimeUnixNano := end, Key.traceState := state, Key.flags := flags,
                                   Key.attributes := attributes, Key.events := events, Key.links := links,
                                   Key.status := status]);
      (Get(o, Key.traceId), Get(o, Key.spanId), Get(o, Key.parentSpanId), Get(o, Key.name), Get(o, Key.kind),
       Get(o, Key.startTimeUnixNano), Get(o, Key.endTimeUnixNano))
      == (Kept(traceId), Kept(spanId), Kept(parent), Kept(name), Kept(kind), Kept(start), Kept(end))
  {
    hide Kept, OmitEmpty;
  }

  lemma SpanDetails(traceId: Json, spanId: Json, parent: Json, name: Json, kind: Json, start: Json, end: Json,
                    state: Json, flags: Json, attributes: Json, events: Json, links: Json, status: Json)
    ensures var o := OmitEmpty(map[Key.traceId := traceId, Key.spanId := spanId, Key.parentSpanId := parent,
                                   Key.name := name, Key.kind := kind, Key.startTimeUnixNano := start,
                                   Key.endTimeUnixNano := end, Key.traceState := state, Key.flags := flags,
                                   Key.attributes := attributes, Key.events := events, Key.links := links,
                                   Key.status := status]);
      (Get(o, Key.traceState), Get(o, Key.flags), Get(o, Key.attributes), Get(o, Key.events), Get(o, Key.links),
       Get(o, Key.status))
      == (Kept(state), Kept(flags), Kept(attributes), Kept(events), Kept(links), Kept(status))
  {
    hide Kept, OmitEmpty;
  }

  lemma SpanAgrees(s: Span)
    ensures Agree(EncodableSpan(s), EncodeSpan(s), BuildSpan(s), ParseSpan)
  {
    hide EncodeAttributes, BuildKeyValues, EncodableAttributes, ParseAttributes, TryMap, ParseList, Kept,
         OmitEmpty, Get, U64Text, ParseU64, OrNone, ParseU32, ParseI32, ParseText, ParseId, HexId, OptionalId,
         ParseEnum,
         EncodeStatus, BuildStatus, ParseOptional, EncodableSpanEvent, EncodableSpanLink;
    AttributesAgree(s.attributes);
    SpanEventsAgree(s.events);
    SpanLinksAgree(s.links);
    IdField(s.traceId);
    IdField(s.spanId);
    OptionalIdField(s.parentSpanId);
    TextField(s.name);
    OrNoneField(s.kind.Number());
    U64Field(s.startTimeUnixNano);
    U64Field(s.endTimeUnixNano);
    TextField(s.traceState);
    OrNoneField(s.flags);
    StatusAgrees(s.status);
    if EncodableSpan(s) {
      SpanScalars(Str(HexId(s.traceId)), Str(HexId(s.spanId)), OptionalId(s.parentSpanId), Str(s.name),
                  OrNone(s.kind.Number()), U64Text(s.startTimeUnixNano), U64Text(s.endTimeUnixNano),
                  Str(s.traceState), OrNone(s.flags), Arr(EncodeAttributes(s.attributes).value),
                  Arr(TryMap(EncodeSpanEvent, s.events).value), Arr(TryMap(EncodeSpanLink, s.links).value),
                  EncodeStatus(s.status));
      SpanDetails(Str(HexId(s.traceId)), Str(HexId(s.spanId)), OptionalId(s.parentSpanId), Str(s.name),
                  OrNone(s.kind.Number()), U64Text(s.startTimeUnixNano), U64Text(s.endTimeUnixNano),
                  Str(s.traceState), OrNone(s.flags), Arr(EncodeAttributes(s.attributes).value),
                  Arr(TryMap(EncodeSpanEvent, s.events).value), Arr(TryMap(EncodeSpanLink, s.links).value),
                  EncodeStatus(s.status));
    }
  }

  // ---- envelopes ----

  lemma ScopeSpansAgrees(x: ScopeSpans)
    ensures Agree(EncodableScopeSpans(x), EncodeScopeSpans(x), BuildScopeSpans(x), ParseScopeSpans)
  {
    hide EncodeScope, BuildScope, ParseScope, EncodableAttributes, TryMap, ParseList, ParseOptional, Get, OmitEmpty,
         EncodeSpan, BuildSpan, ParseSpan, EncodableSpan;
    ScopeAgrees(x.scope);
    forall y | y in x.spans ensures Agree(EncodableSpan(y), EncodeSpan(y), BuildSpan(y), ParseSpan) {
      SpanAgrees(y);
    }
    EnvelopeAgrees(Key.scope, EncodableAttributes(x.scope.attributes), EncodeScope(x.scope), BuildScope(x.scope),
                   ParseScope,
                   Key.spans, EncodableSpan, EncodeSpan, BuildSpan, ParseSpan, x.spans);
  }

  lemma ResourceSpansAgrees(x: ResourceSpans)
    ensures Agree(EncodableResourceSpans(x), EncodeOneResourceSpans(x), BuildResourceSpans(x), ParseResourceSpans)
  {
    hide EncodeResource, BuildResource, ParseResource, EncodableAttributes, TryMap, ParseList, ParseOptional, Get,
         OmitEmpty,
         EncodeScopeSpans, BuildScopeSpans, ParseScopeSpans, EncodableScopeSpans;
    ResourceAgrees(x.resource);
    forall y | y in x.scopeSpans
      ensures Agree(EncodableScopeSpans(y), EncodeScopeSpans(y), BuildScopeSpans(y), ParseScopeSpans)
    {
      ScopeSpansAgrees(y);
    }
    EnvelopeAgrees(Key.resource, EncodableAttributes(x.resource.attributes), EncodeResource(x.resource),
                   BuildResource(x.resource), ParseResource,
         Key.scopeSpans, EncodableScopeSpans, EncodeScopeSpans, BuildScopeSpans, ParseScopeSpans, x.scopeSpans);
  }

  // The encoders agree on every traces tree.
  lemma {:induction false} TracesEncodersAgree(data: seq<ResourceSpans>)
    ensures Agree(forall x | x in data :: EncodableResourceSpans(x), EncodeTraces(data), BuildTraces(data), ParseTraces)
  {
    hide TryMap, ParseList, EncodeOneResourceSpans, BuildResourceSpans, ParseResourceSpans, EncodableResourceSpans;
    forall x | x in data
      ensures Agree(EncodableResourceSpans(x), EncodeOneResourceSpans(x), BuildResourceSpans(x), ParseResourceSpans)
    {
      ResourceSpansAgrees(x);
    }
    RequestAgrees(Key.resourceSpans, EncodableResourceSpans, EncodeOneResourceSpans, BuildResourceSpans,
                  ParseResourceSpans, data);
  }
}

// Logs: the document parses as the message, with a body of any kind.
module LogsAgreement {
  import opened Wrappers
  import opened Model
  import opened Json
  import opened JsonEncoder
  import opened ProtobufEncoder
  import opened ProtoJson
  import opened Encodable
  import opened Agreement

  // ---- log records ----

  lemma LogRecordMembers(time: Json, observed: Json, severity: Json, text: Json, body: Json, attributes: Json,
                         traceId: Json, spanId: Json, event: Json, flags: Json)
    ensures var o := OmitEmpty(map[Key.timeUnixNano := time, Key.observedTimeUnixNano := observed,
                                   Key.severityNumber := severity, Key.severityText := text, Key.body := body,
                                   Key.attributes := attributes, Key.traceId := traceId, Key.spanId := spanId,
                                   Key.eventName := event, Key.flags := flags]);
      (Get(o, Key.timeUnixNano), Get(o, Key.observedTimeUnixNano), Get(o, Key.severityNumber),
       Get(o, Key.severityText), Get(o, Key.body), Get(o, Key.attributes), Get(o, Key.traceId),
       Get(o, Key.spanId), Get(o, Key.eventName), Get(o, Key.flags))
      == (Kept(time), Kept(observed), Kept(severity), Kept(text), Kept(body), Kept(attributes), Kept(traceId),
          Kept(spanId), Kept(event), Kept(flags))
  {
    hide Kept, OmitEmpty;
  }

  // A body is never dropped: even an empty text is a case of the oneof.
  lemma BodyField(v: AnyValue)
    ensures EncodeAnyValue(v).Ok? == BuildAnyValue(v).Ok? == EncodableValue(v)
    ensures EncodeAnyValue(v).Ok? ==>
      ParseOptional(ParseAnyValue, Kept(EncodeAnyValue(v).value)) == Some(Some(BuildAnyValue(v).value))
  {
    hide ParseAnyValue;
    ValueAgrees(v);
    if EncodeAnyValue(v).Ok? { ValueIsNeverEmpty(v); }
  }

  lemma ValueIsNeverEmpty(v: AnyValue)
    requires EncodeAnyValue(v).Ok?
    ensures !IsEmpty(EncodeAnyValue(v).value)
  {
    hide EncodeAttributes, EncodeValues;
    var o := EncodeAnyValue(v).value.fields;
    var k := match v
      case BoolValue(_) => Key.boolValue
      case IntValue(_) => Key.intValue
      case DoubleValue(_) => Key.doubleValue
      case StringValue(_) => Key.stringValue
      case BytesValue(_) => Key.bytesValue
      case MapValue(_) => Key.kvlistValue
      case _ => Key.arrayValue;
    assert k in o;
  }

  lemma LogRecordAgrees(r: LogRecord)
    ensures Agree(EncodableLogRecord(r), EncodeLogRecord(r), BuildLogRecord(r), ParseLogRecord)
  {
    hide EncodeAttributes, BuildKeyValues, EncodableAttributes, ParseAttributes, TryMap, ParseList, Kept,
         OmitEmpty, Get, U64Text, ParseU64, OrNone, ParseU32, ParseI32, EncodeAnyValue, BuildAnyValue, EncodableValue,
         ParseAnyValue,
         ParseOptional, OptionalId, ParseId, ParseText, ParseEnum;
    BodyField(r.body);
    AttributesAgree(r.attributes);
    U64Field(r.timeUnixNano);
    U64Field(r.observedTimeUnixNano);
    OrNoneField(r.severityNumber.Number());
    TextField(r.severityText);
    OptionalIdField(r.traceId);
    OptionalIdField(r.spanId);
    TextField(r.eventName);
    OrNoneField(r.flags);
    if EncodableLogRecord(r) {
      LogRecordMembers(U64Text(r.timeUnixNano), U64Text(r.observedTimeUnixNano),
                       OrNone(r.severityNumber.Number()), Str(r.severityText), EncodeAnyValue(r.body).value,
                       Arr(EncodeAttributes(r.attributes).value), OptionalId(r.traceId), OptionalId(r.spanId),
                       Str(r.eventName), OrNone(r.flags));
    }
  }

  // ---- envelopes ----

  lemma ScopeLogsAgrees(x: ScopeLogs)
    ensures Agree(EncodableScopeLogs(x), EncodeScopeLogs(x), BuildScopeLogs(x), ParseScopeLogs)
  {
    hide EncodeScope, BuildScope, ParseScope, EncodableAttributes, TryMap, ParseList, ParseOptional, Get, OmitEmpty,
         EncodeLogRecord, BuildLogRecord, ParseLogRecord, EncodableLogRecord;
    ScopeAgrees(x.scope);
    forall y | y in x.logRecords
      ensures Agree(EncodableLogRecord(y), EncodeLogRecord(y), BuildLogRecord(y), ParseLogRecord)
    {
      LogRecordAgrees(y);
    }
    EnvelopeAgrees(Key.scope, EncodableAttributes(x.scope.attributes), EncodeScope(x.scope), BuildScope(x.scope),
                   ParseScope,
                   Key.logRecords, EncodableLogRecord, EncodeLogRecord, BuildLogRecord, ParseLogRecord, x.logRecords);
  }

  lemma ResourceLogsAgrees(x: ResourceLogs)
    ensures Agree(EncodableResourceLogs(x), EncodeOneResourceLogs(x), BuildResourceLogs(x), ParseResourceLogs)
  {
    hide EncodeResource, BuildResource, ParseResource, EncodableAttributes, TryMap, ParseList, ParseOptional, Get,
         OmitEmpty,
         EncodeScopeLogs, BuildScopeLogs, ParseScopeLogs, EncodableScopeLogs;
    ResourceAgrees(x.resource);
    forall y | y in x.scopeLogs
      ensures Agree(EncodableScopeLogs(y), EncodeScopeLogs(y), BuildScopeLogs(y), ParseScopeLogs)
    {
      ScopeLogsAgrees(y);
    }
    EnvelopeAgrees(Key.resource, EncodableAttributes(x.resource.attributes), EncodeResource(x.resource),
                   BuildResource(x.resource), ParseResource,
                   Key.scopeLogs, EncodableScopeLogs, EncodeScopeLogs, BuildScopeLogs, ParseScopeLogs, x.scopeLogs);
  }

  // The encoders agree on every logs tree.
  lemma {:induction false} LogsEncodersAgree(data: seq<ResourceLogs>)
    ensures Agree(forall x | x in data :: EncodableResourceLogs(x), EncodeLogs(data), BuildLogs(data), ParseLogs)
  {
    hide TryMap, ParseList, EncodeOneResourceLogs, BuildResourceLogs, ParseResourceLogs, EncodableResourceLogs;
    forall x | x in data
      ensures Agree(EncodableResourceLogs(x), EncodeOneResourceLogs(x), BuildResourceLogs(x), ParseResourceLogs)
    {
      ResourceLogsAgrees(x);
    }
    RequestAgrees(Key.resourceLogs, EncodableResourceLogs, EncodeOneResourceLogs, BuildResourceLogs,
                  ParseResourceLogs, data);
  }
}

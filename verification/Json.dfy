// JSON documents, and omit_empty of encoding/primitives.py.
module Json {
  import opened Model

  // The member names of OTLP/JSON; each constructor is spelled as its key.
  datatype Key =
    | aggregationTemporality | arrayValue | asDouble | asInt | attributes | body | boolValue
    | bucketCounts | bytesValue | code | count | dataPoints | description | doubleValue
    | droppedAttributesCount | endTimeUnixNano | eventName | events | exemplars | explicitBounds
    | exponentialHistogram | filteredAttributes | flags | gauge | histogram | intValue | isMonotonic
    | key | kind | kvlistValue | links | logRecords | max | message | metrics | min | name | negative
    | observedTimeUnixNano | offset | parentSpanId | positive | quantile | quantileValues | resource
    | resourceLogs | resourceMetrics | resourceSpans | scale | scope | scopeLogs | scopeMetrics
    | scopeSpans | severityNumber | severityText | spanId | spans | startTimeUnixNano | status
    | stringValue | sum | summary | timeUnixNano | traceId | traceState | unit | value | values
    | version | zeroCount | zeroThreshold

  // Null is both the JSON null and Python's None inside a dictionary under construction.
  datatype Json =
    | Null
    | Bool(b: bool)
    | Int(n: int)
    | Num(d: Float)
    | Str(s: string)
    | Arr(items: seq<Json>)
    | Obj(fields: Object)

  type Object = map<Key, Json>

  // What omit_empty drops: None, "", [] and {}. Zero and False stay.
  predicate IsEmpty(v: Json) {
    v == Null || v == Str("") || v == Arr([]) || v == Obj(map[])
  }

  // A value as a reader of the finished document sees it: a dropped member
  // and a null member are both absent.
  function Kept(v: Json): Json {
    if IsEmpty(v) then Null else v
  }

  function Get(o: Object, k: Key): Json {
    if k in o then o[k] else Null
  }

  // Nothing empty is left, and every other member is what it was.
  function OmitEmpty(o: Object): (r: Object)
    ensures r.Keys <= o.Keys
    ensures forall v :: v in r.Values ==> v != Null && v != Str("") && v != Arr([]) && v != Obj(map[])
    ensures forall k {:trigger Get(r, k)} :: Get(r, k) == Kept(Get(o, k))
  {
    map k | k in o && !IsEmpty(o[k]) :: o[k]
  }

  // A member stays, with its value, exactly when it is none of the four.
  lemma OmitEmptyKeeps(o: Object, k: Key)
    ensures k in OmitEmpty(o) <==>
      k in o && o[k] != Null && o[k] != Str("") && o[k] != Arr([]) && o[k] != Obj(map[])
    ensures k in OmitEmpty(o) ==> OmitEmpty(o)[k] == o[k]
  {
  }

  // omit_empty yields {} exactly when every member is empty.
  lemma OmitEmptyIsEmpty(o: Object)
    ensures OmitEmpty(o) == map[] <==> forall k :: k in o ==> IsEmpty(o[k])
  {
    assert forall k :: k in o && !IsEmpty(o[k]) ==> k in OmitEmpty(o);
    assert OmitEmpty(o).Keys == {} <==> OmitEmpty(o) == map[];
  }
}

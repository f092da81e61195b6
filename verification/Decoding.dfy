// Reading attribute values back: the inverse of encode_any_value.
module Decoding {
  import opened Wrappers
  import opened Model
  import opened Json
  import opened JsonEncoder
  import opened ProtobufEncoder
  import opened ProtoJson
  import opened Encodable
  import opened Agreement

  // The attribute value a message holds.
  function RestoreValue(m: P.AnyValue): Option<AnyValue>
    decreases m, 0
  {
    match m
    case NoValue => None
    case StringValue(s) => Some(StringValue(s))
    case BoolValue(b) => Some(BoolValue(b))
    case IntValue(i) => Some(IntValue(i))
    case DoubleValue(d) => Some(DoubleValue(d))
    case BytesValue(bytes) => Some(BytesValue(bytes))
    case ArrayValue(values) =>
      var vs :- RestoreValues(values);
      Some(ListValue(vs))
    case KvlistValue(entries) =>
      var attributes :- RestoreAttributes(entries);
      Some(MapValue(attributes))
  }

  function RestoreValues(ms: seq<P.AnyValue>): Option<seq<AnyValue>>
    decreases ms, 0
  {
    if ms == [] then Some([]) else
    var head :- RestoreValue(ms[0]);
    var tail :- RestoreValues(ms[1..]);
    Some([head] + tail)
  }

  function RestoreAttributes(ms: seq<P.KeyValue>): Option<Attributes>
    decreases ms, 0
  {
    if ms == [] then Some([])
    else if ms[0].value.None? then None
    else
      var value :- RestoreValue(ms[0].value.value);
      var tail :- RestoreAttributes(ms[1..]);
      Some([Attribute(ms[0].key, value)] + tail)
  }

  function DecodeAnyValue(j: Json): Option<AnyValue> {
    var m :- ParseAnyValue(j);
    RestoreValue(m)
  }

  function DecodeAttributes(items: seq<Json>): Option<Attributes> {
    var ms :- ParseKeyValues(items);
    RestoreAttributes(ms)
  }

  lemma {:induction false} ValueRestored(v: AnyValue)
    requires BuildAnyValue(v).Ok?
    ensures RestoreValue(BuildAnyValue(v).value) == Some(v)
    decreases v, 0
  {
    match v
    case MapValue(entries) => AttributesRestored(entries);
    case ListValue(values) => ValuesRestored(values);
    case _ =>
  }

  lemma {:induction false} ValuesRestored(vs: seq<AnyValue>)
    requires BuildValues(vs).Ok?
    ensures RestoreValues(BuildValues(vs).value) == Some(vs)
    decreases vs, 0
  {
    if vs != [] {
      ValueRestored(vs[0]);
      ValuesRestored(vs[1..]);
      assert BuildValues(vs).value[1..] == BuildValues(vs[1..]).value;
      assert vs == [vs[0]] + vs[1..];
    }
  }

  lemma {:induction false} AttributesRestored(attributes: Attributes)
    requires BuildKeyValues(attributes).Ok?
    ensures RestoreAttributes(BuildKeyValues(attributes).value) == Some(attributes)
    decreases attributes, 1
  {
    if attributes != [] {
      ValueRestored(attributes[0].value);
      AttributesRestored(attributes[1..]);
      assert BuildKeyValues(attributes).value[1..] == BuildKeyValues(attributes[1..]).value;
      assert attributes == [attributes[0]] + attributes[1..];
    }
  }

  // Decoding inverts encode_any_value and encode_attributes, which therefore
  // never confuse two values: a boolean and an integer least of all.
  lemma DecodeInvertsEncode(v: AnyValue, attributes: Attributes)
    ensures EncodableValue(v) ==>
      EncodeAnyValue(v).Ok? && DecodeAnyValue(EncodeAnyValue(v).value) == Some(v)
    ensures EncodableAttributes(attributes) ==>
      EncodeAttributes(attributes).Ok? && DecodeAttributes(EncodeAttributes(attributes).value) == Some(attributes)
  {
    ValueAgrees(v);
    KeyValuesAgree(attributes);
    if EncodableValue(v) { ValueRestored(v); }
    if EncodableAttributes(attributes) { AttributesRestored(attributes); }
  }

  lemma EncodeAnyValueInjective(v: AnyValue, w: AnyValue)
    requires EncodableValue(v) && EncodableValue(w) && EncodeAnyValue(v) == EncodeAnyValue(w)
    ensures v == w
  {
    DecodeInvertsEncode(v, []);
    DecodeInvertsEncode(w, []);
  }
}

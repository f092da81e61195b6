// What it means that the two encoders describe the same message, and the
// parts every signal shares: lists, attribute values, scalar fields, resource
// and scope.
module Agreement {
  import opened Wrappers
  import opened Text
  import opened Model
  import opened Json
  import opened JsonEncoder
  import opened ProtobufEncoder
  import opened ProtoJson
  import opened Encodable

  // ---- what agreement means ----

  // Both encoders succeed exactly when the tree is encodable, and then the
  // document parses as the message.
  ghost predicate Agree<M>(encodable: bool, json: Encoded<Json>, built: Built<M>, parse: Json -> Parsed<M>) {
    && json.Ok? == built.Ok? == encodable
    && (encodable ==> json.value != Null && parse(json.value) == Some(built.value))
  }

  // The same for a repeated field, and for a message field that may be absent.
  ghost predicate AgreeList<M>(encodable: bool, json: Encoded<seq<Json>>, built: Built<seq<M>>,
                               parse: Json -> Parsed<M>)
  {
    && json.Ok? == built.Ok? == encodable
    && (encodable ==> ParseList(parse, Kept(Arr(json.value))) == Some(built.value))
  }

  ghost predicate AgreeOptional<M>(encodable: bool, json: Encoded<Json>, built: Built<Option<M>>,
                                   parse: Json -> Parsed<M>)
  {
    && json.Ok? == built.Ok? == encodable
    && (encodable ==> ParseOptional(parse, Kept(json.value)) == Some(built.value))
  }

  lemma {:induction false} ListAgrees<A, M>(encodable: A -> bool, encode: A -> Encoded<Json>,
                                            build: A -> Built<M>, parse: Json -> Parsed<M>, xs: seq<A>)
    requires forall x | x in xs :: Agree(encodable(x), encode(x), build(x), parse)
    ensures AgreeList(forall x | x in xs :: encodable(x), TryMap(encode, xs), TryMap(build, xs), parse)
    ensures TryMap(encode, xs).Ok? ==> ParseList(parse, Arr(TryMap(encode, xs).value)) == Some(TryMap(build, xs).value)
  {
    if xs != [] {
      assert Agree(encodable(xs[0]), encode(xs[0]), build(xs[0]), parse);
      assert xs == [xs[0]] + xs[1..];
      assert (forall x | x in xs :: encodable(x)) <==> encodable(xs[0]) && forall x | x in xs[1..] :: encodable(x);
      ListAgrees(encodable, encode, build, parse, xs[1..]);
      var js := TryMap(encode, xs);
      if js.Ok? {
        assert js.value[1..] == TryMap(encode, xs[1..]).value;
        KeptList(parse, js.value);
      }
    }
  }

  // Dropping an empty list loses nothing.
  lemma KeptList<M>(parse: Json -> Parsed<M>, items: seq<Json>)
    ensures ParseList(parse, Kept(Arr(items))) == Traverse(Element(parse), items)
  {
  }

  // ---- attribute values ----

  // An object of one member is read as that case of the oneof.
  lemma OneofReads(k: Key, v: Json)
    ensures ParseAnyValue(Obj(map[k := v])) == ParseCase(k, v)
  {
    var o: Object := map[k := v];
    assert k in o && o.Keys == {k};
    assert SoleKey(o) == Some(k);
  }

  // The two containers keep their member even when it is an empty list.
  lemma ContainerCases(items: seq<Json>)
    ensures ParseAnyValue(Obj(map[Key.arrayValue := Obj(map[Key.values := Arr(items)])]))
         == var r := ParseValues(items); if r.Some? then Some(P.ArrayValue(r.value)) else None
    ensures ParseAnyValue(Obj(map[Key.kvlistValue := Obj(map[Key.values := Arr(items)])]))
         == var r := ParseKeyValues(items); if r.Some? then Some(P.KvlistValue(r.value)) else None
  {
    hide ParseValues, ParseKeyValues, ParseAnyValue;
    var inner: Object := map[Key.values := Arr(items)];
    assert Get(inner, Key.values) == Arr(items) && inner.Keys <= {Key.values};
    OneofReads(Key.arrayValue, Obj(inner));
    OneofReads(Key.kvlistValue, Obj(inner));
  }

  lemma {:induction false} ValueAgrees(v: AnyValue)
    ensures Agree(EncodableValue(v), EncodeAnyValue(v), BuildAnyValue(v), ParseAnyValue)
    decreases v, 0
  {
    hide ParseAnyValue, ParseValues, ParseKeyValues;
    match v
    case MapValue(entries) =>
      KeyValuesAgree(entries);
      if EncodeAttributes(entries).Ok? { ContainerCases(EncodeAttributes(entries).value); }
    case ListValue(values) =>
      ValuesAgree(values);
      if EncodeValues(values).Ok? { ContainerCases(EncodeValues(values).value); }
    case _ => ScalarAgrees(v);
  }

  lemma IntegerReads(n: int, low: int, high: int)
    requires low <= 0 <= high && low <= n <= high
    ensures ParseDecimal(U64Text(n), low, high) == Some(n)
  {
    IntRoundTrip(n);
  }

  lemma IntCase(i: I64)
    ensures ParseCase(Key.intValue, U64Text(i)) == Some(P.IntValue(i))
  {
    IntegerReads(i, -0x8000_0000_0000_0000, 0x7FFF_FFFF_FFFF_FFFF);
  }

  lemma BytesCase(bytes: seq<Byte>)
    ensures ParseCase(Key.bytesValue, Str(Base64(bytes))) == Some(P.BytesValue(bytes))
  {
    Base64RoundTrip(bytes);
  }

  lemma ScalarAgrees(v: AnyValue)
    requires !v.MapValue? && !v.ListValue?
    ensures Agree(EncodableValue(v), EncodeAnyValue(v), BuildAnyValue(v), ParseAnyValue)
  {
    hide ParseAnyValue, U64Text, Base64;
    match v
    case IntValue(i) => IntCase(i); OneofReads(Key.intValue, U64Text(i));
    case BytesValue(bytes) => BytesCase(bytes); OneofReads(Key.bytesValue, Str(Base64(bytes)));
    case BoolValue(b) => OneofReads(Key.boolValue, Bool(b));
    case DoubleValue(d) => OneofReads(Key.doubleValue, Num(d));
    case StringValue(text) => OneofReads(Key.stringValue, Str(text));
    case Unsupported =>
  }

  lemma {:induction false} ValuesAgree(vs: seq<AnyValue>)
    ensures EncodeValues(vs).Ok? == BuildValues(vs).Ok? == (forall v | v in vs :: EncodableValue(v))
    ensures EncodeValues(vs).Ok? ==> ParseValues(EncodeValues(vs).value) == Some(BuildValues(vs).value)
    decreases vs, 0
  {
    if vs != [] {
      ValueAgrees(vs[0]);
      ValuesAgree(vs[1..]);
      assert vs == [vs[0]] + vs[1..];
      assert (forall v | v in vs :: EncodableValue(v))
        <==> EncodableValue(vs[0]) && forall v | v in vs[1..] :: EncodableValue(v);
      if EncodeValues(vs).Ok? {
        assert EncodeValues(vs).value[1..] == EncodeValues(vs[1..]).value;
      }
    }
  }

  lemma {:induction false} KeyValuesAgree(attributes: Attributes)
    ensures EncodeAttributes(attributes).Ok? == BuildKeyValues(attributes).Ok? == EncodableAttributes(attributes)
    ensures EncodeAttributes(attributes).Ok?
        ==> ParseKeyValues(EncodeAttributes(attributes).value) == Some(BuildKeyValues(attributes).value)
    decreases attributes, 1
  {
    if attributes != [] {
      ValueAgrees(attributes[0].value);
      KeyValuesAgree(attributes[1..]);
      assert attributes == [attributes[0]] + attributes[1..];
      var js := EncodeAttributes(attributes);
      if js.Ok? {
        assert js.value[1..] == EncodeAttributes(attributes[1..]).value;
        var value := EncodeAnyValue(attributes[0].value).value;
        assert js.value[0] == Obj(map[Key.key := Str(attributes[0].key), Key.value := value]);
      }
    }
  }

  // The attributes member of any message.
  lemma AttributesAgree(attributes: Attributes)
    ensures EncodeAttributes(attributes).Ok? == BuildKeyValues(attributes).Ok? == EncodableAttributes(attributes)
    ensures EncodeAttributes(attributes).Ok? ==>
      && ParseAttributes(Kept(Arr(EncodeAttributes(attributes).value))) == Some(BuildKeyValues(attributes).value)
      && (EncodeAttributes(attributes).value == [] <==> attributes == [])
    ensures attributes == [] ==> EncodableAttributes(attributes)
  {
    KeyValuesAgree(attributes);
  }

  // ---- fields ----

  lemma U64Field(n: U64)
    ensures ParseU64(Kept(U64Text(n))) == Some(n)
  {
    IntegerReads(n, 0, 0xFFFF_FFFF_FFFF_FFFF);
  }

  // An absent start time and a zero one are the same on the wire.
  lemma OptionalU64Field(n: Option<U64>)
    ensures ParseU64(Kept(OptionalU64(n))) == Some(n.GetOr(0))
  {
    if n.Some? { U64Field(n.value); }
  }

  lemma U64ListField(ns: seq<U64>)
    ensures ParseList(ParseU64, Kept(Arr(U64Texts(ns)))) == Some(ns)
  {
    KeptList(ParseU64, U64Texts(ns));
    U64Elements(ns);
  }

  lemma {:induction false} U64Elements(ns: seq<U64>)
    ensures Traverse(Element(ParseU64), U64Texts(ns)) == Some(ns)
  {
    if ns != [] {
      U64Field(ns[0]);
      U64Elements(ns[1..]);
      assert U64Texts(ns)[1..] == U64Texts(ns[1..]);
      assert [ns[0]] + ns[1..] == ns;
    }
  }

  lemma DoubleListField(ds: seq<Float>)
    ensures ParseList(ParseDouble, Kept(Arr(Doubles(ds)))) == Some(ds)
  {
    KeptList(ParseDouble, Doubles(ds));
    DoubleElements(ds);
  }

  lemma {:induction false} DoubleElements(ds: seq<Float>)
    ensures Traverse(Element(ParseDouble), Doubles(ds)) == Some(ds)
  {
    if ds != [] {
      DoubleElements(ds[1..]);
      assert ParseDouble(Num(ds[0])) == Some(ds[0]);
      assert Doubles(ds)[1..] == Doubles(ds[1..]);
      assert [ds[0]] + ds[1..] == ds;
    }
  }

  lemma IdField(id: seq<Byte>)
    ensures ParseId(Kept(Str(HexId(id)))) == Some(id)
  {
    HexRoundTrip(id);
  }

  lemma OptionalIdField(id: Option<seq<Byte>>)
    ensures ParseId(Kept(OptionalId(id))) == Some(id.GetOr([]))
  {
    if id.Some? { IdField(id.value); }
  }

  // The bit pattern of a double of implicit presence survives: +0.0 because a
  // missing field is +0.0, -0.0 because it is kept.
  lemma ImplicitDoubleField(d: Float)
    ensures ParseDouble(Kept(ImplicitDouble(d))) == Some(d)
    ensures Kept(ImplicitDouble(d)) == Null <==> d == PosZero
  {
  }

  // A double of explicit presence: zero is present, None is absent.
  lemma OptionalDoubleField(d: Option<Float>)
    ensures ParseOptionalDouble(Kept(OptionalDouble(d))) == Some(d)
  {
  }

  lemma TextField(s: string)
    ensures ParseText(Kept(Str(s))) == Some(s)
  {
  }

  // An integer that is left out when zero.
  lemma OrNoneField(n: int)
    ensures 0 <= n < 0x1_0000_0000 ==> ParseU32(Kept(OrNone(n))) == Some(n)
    ensures -0x8000_0000 <= n < 0x8000_0000 ==>
      ParseI32(Kept(OrNone(n))) == Some(n) && ParseEnum(Kept(OrNone(n))) == Some(n)
  {
  }

  // ---- envelopes ----

  // The emptiness test of the protobuf side holds exactly when the JSON side is {}.
  lemma ResourceAgrees(r: Resource)
    ensures AgreeOptional(EncodableAttributes(r.attributes), EncodeResource(r), BuildResource(r), ParseResource)
    ensures EncodeResource(r).Ok? ==> (ResourceIsEmpty(r) <==> EncodeResource(r).value == Obj(map[]))
  {
    hide EncodeAttributes, BuildKeyValues, EncodableAttributes, ParseAttributes;
    AttributesAgree(r.attributes);
    if EncodableAttributes(r.attributes) {
      var attributes, dropped := Arr(EncodeAttributes(r.attributes).value), OrNone(r.droppedAttributesCount);
      var members: Object := map[Key.attributes := attributes, Key.droppedAttributesCount := dropped];
      OmitEmptyIsEmpty(members);
      var o := OmitEmpty(members);
      assert (Get(o, Key.attributes), Get(o, Key.droppedAttributesCount)) == (Kept(attributes), Kept(dropped));
    }
  }

  lemma ScopeAgrees(s: Scope)
    ensures AgreeOptional(EncodableAttributes(s.attributes), EncodeScope(s), BuildScope(s), ParseScope)
    ensures EncodeScope(s).Ok? ==> (ScopeIsEmpty(s) <==> EncodeScope(s).value == Obj(map[]))
  {
    hide EncodeAttributes, BuildKeyValues, EncodableAttributes, ParseAttributes;
    AttributesAgree(s.attributes);
    if EncodableAttributes(s.attributes) {
      var name, version, attributes :=
        Str(s.name), OptionalText(s.version), Arr(EncodeAttributes(s.attributes).value);
      var members: Object := map[Key.name := name, Key.version := version, Key.attributes := attributes];
      OmitEmptyIsEmpty(members);
      var o := OmitEmpty(members);
      assert (Get(o, Key.name), Get(o, Key.version), Get(o, Key.attributes))
          == (Kept(name), Kept(version), Kept(attributes));
    }
  }

  // An envelope of two members, an optional header message and a list: when
  // its parts agree, so does the whole.
  lemma EnvelopeAgrees<H, A, M>(headerKey: Key, headerFine: bool, header: Encoded<Json>, built: Built<Option<H>>,
                                parseHeader: Json -> Parsed<H>, listKey: Key, fine: A -> bool,
                                encode: A -> Encoded<Json>, build: A -> Built<M>, parse: Json -> Parsed<M>,
                                xs: seq<A>)
    requires headerKey != listKey && AgreeOptional(headerFine, header, built, parseHeader)
    requires forall x | x in xs :: Agree(fine(x), encode(x), build(x), parse)
    ensures header.Ok? == built.Ok? == headerFine
    ensures TryMap(encode, xs).Ok? == TryMap(build, xs).Ok? == forall x | x in xs :: fine(x)
    ensures header.Ok? && TryMap(encode, xs).Ok? ==>
      var o := OmitEmpty(map[headerKey := header.value, listKey := Arr(TryMap(encode, xs).value)]);
      && ParseOptional(parseHeader, Get(o, headerKey)) == Some(built.value)
      && ParseList(parse, Get(o, listKey)) == Some(TryMap(build, xs).value)
      && o.Keys <= {headerKey, listKey}
  {
    ListAgrees(fine, encode, build, parse, xs);
    if header.Ok? && TryMap(encode, xs).Ok? {
      EnvelopeReads(headerKey, header.value, listKey, Arr(TryMap(encode, xs).value));
    }
  }

  lemma EnvelopeReads(headerKey: Key, header: Json, listKey: Key, items: Json)
    requires headerKey != listKey
    ensures var o := OmitEmpty(map[headerKey := header, listKey := items]);
      Get(o, headerKey) == Kept(header) && Get(o, listKey) == Kept(items) && o.Keys <= {headerKey, listKey}
  {
  }

  // The request itself: one member, the list, written even when it is empty.
  lemma RequestAgrees<A, M>(k: Key, fine: A -> bool, encode: A -> Encoded<Json>, build: A -> Built<M>,
                            parse: Json -> Parsed<M>, xs: seq<A>)
    requires forall x | x in xs :: Agree(fine(x), encode(x), build(x), parse)
    ensures TryMap(encode, xs).Ok? == TryMap(build, xs).Ok? == forall x | x in xs :: fine(x)
    ensures TryMap(encode, xs).Ok? ==>
      var o: Object := map[k := Arr(TryMap(encode, xs).value)];
      ParseList(parse, Get(o, k)) == Some(TryMap(build, xs).value) && o.Keys <= {k}
  {
    ListAgrees(fine, encode, build, parse, xs);
  }
}

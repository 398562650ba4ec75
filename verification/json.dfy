/** A small JSON value type and the field-level codecs that Jackson applies
    to the API's records: nullable and mandatory attributes, Java int range,
    arrays decoded element by element, and NON_EMPTY inclusion. */
module Json {
  import opened Wrappers

  /** A JSON number literal, kept exactly as mantissa * 10^exponent.
      Java doubles are carried as the literal they arrived as: the model
      never rounds to binary64 and never computes with them. */
  datatype Number = Number(mantissa: int, exponent: int)

  datatype JsonValue =
    | JNull
    | JBool(b: bool)
    | JNumber(n: Number)
    | JString(s: string)
    | JArray(items: seq<JsonValue>)
    | JObject(fields: map<string, JsonValue>)

  /** The members of a JSON object; JSON objects carry no key order. */
  type Object = map<string, JsonValue>

  /** Java's 32-bit signed int. */
  type Int32 = x: int | -0x8000_0000 <= x < 0x8000_0000

  datatype DecodeError =
    | MissingRequiredField(field: string)
    | MalformedWireValue(field: string)
    | UnknownEnumValue(field: string, value: string)
    | UnknownVariantTag(tag: string)
    | UnrecognizedUnionShape(jsonType: string)

  /** The JSON type of a value, as reported in a shape error. */
  function TypeName(j: JsonValue): string {
    match j
    case JNull => "null"
    case JBool(_) => "boolean"
    case JNumber(_) => "number"
    case JString(_) => "string"
    case JArray(_) => "array"
    case JObject(_) => "object"
  }

  /** What Jackson's NON_EMPTY inclusion treats as empty: null, the empty
      string, an empty collection and an empty map. */
  predicate IsEmpty(j: JsonValue) {
    j == JNull || j == JString("") || j == JArray([]) || j == JObject(map[])
  }

  /** The value under `key`; an absent key reads as null, since Jackson binds
      a missing property and an explicit null alike. */
  function Lookup(obj: Object, key: string): JsonValue {
    if key in obj then obj[key] else JNull
  }

  function IntValue(i: Int32): JsonValue {
    JNumber(Number(i, 0))
  }

  /** An int-typed wire value: an integral literal inside Java's int range. */
  function AsInt32(j: JsonValue, field: string): (r: Result<Int32, DecodeError>)
    ensures r.Success? <==> j.JNumber? && j.n.exponent == 0 && -0x8000_0000 <= j.n.mantissa < 0x8000_0000
    ensures r.Success? ==> IntValue(r.value) == j
    ensures r.Failure? ==> r.error == MalformedWireValue(field)
  {
    if j.JNumber? && j.n.exponent == 0 && -0x8000_0000 <= j.n.mantissa < 0x8000_0000 then
      Success(j.n.mantissa)
    else
      Failure(MalformedWireValue(field))
  }

  function AsNumber(j: JsonValue, field: string): (r: Result<Number, DecodeError>)
    ensures r.Success? <==> j.JNumber?
    ensures r.Success? ==> j == JNumber(r.value)
    ensures r.Failure? ==> r.error == MalformedWireValue(field)
  {
    if j.JNumber? then Success(j.n) else Failure(MalformedWireValue(field))
  }

  function AsString(j: JsonValue, field: string): (r: Result<string, DecodeError>)
    ensures r.Success? <==> j.JString?
    ensures r.Success? ==> j == JString(r.value)
    ensures r.Failure? ==> r.error == MalformedWireValue(field)
  {
    if j.JString? then Success(j.s) else Failure(MalformedWireValue(field))
  }

  function AsBool(j: JsonValue, field: string): (r: Result<bool, DecodeError>)
    ensures r.Success? <==> j.JBool?
    ensures r.Success? ==> j == JBool(r.value)
    ensures r.Failure? ==> r.error == MalformedWireValue(field)
  {
    if j.JBool? then Success(j.b) else Failure(MalformedWireValue(field))
  }

  /** A nullable attribute: an absent key or null reads as None, anything
      else goes through `dec`. */
  function Nullable<T>(obj: Object, key: string, dec: JsonValue -> Result<T, DecodeError>): (r: Result<Option<T>, DecodeError>)
    ensures Lookup(obj, key) == JNull ==> r == Success(None)
    ensures Lookup(obj, key) != JNull ==> r.Success? == dec(obj[key]).Success?
    ensures Lookup(obj, key) != JNull && r.Success? ==> r.value == Some(dec(obj[key]).value)
  {
    if Lookup(obj, key) == JNull then Success(None)
    else
      match dec(obj[key])
      case Success(v) => Success(Some(v))
      case Failure(e) => Failure(e)
  }

  /** A nullable attribute written with `enc`, or as null when absent,
      reads back through `dec`. */
  lemma NullableRoundTrip<T>(obj: Object, key: string, o: Option<T>, enc: T -> JsonValue, dec: JsonValue -> Result<T, DecodeError>)
    requires Lookup(obj, key) == (if o.Some? then enc(o.value) else JNull)
    requires o.Some? ==> enc(o.value) != JNull && dec(enc(o.value)) == Success(o.value)
    ensures Nullable(obj, key, dec) == Success(o)
  {
  }

  /** Two objects that read alike under every key: they differ at most in
      keys that one leaves out and the other sets to null. */
  ghost predicate SameLookups(o1: Object, o2: Object) {
    forall k :: Lookup(o1, k) == Lookup(o2, k)
  }

  /** A key that reads alike in two objects decodes alike, as a nullable
      or as a mandatory attribute. */
  lemma SameLookupAttributes<T>(o1: Object, o2: Object, key: string, dec: JsonValue -> Result<T, DecodeError>)
    requires Lookup(o1, key) == Lookup(o2, key)
    ensures Nullable(o1, key, dec) == Nullable(o2, key, dec)
    ensures Required(o1, key, dec) == Required(o2, key, dec)
  {
  }

  /** A mandatory attribute: an absent key or null fails the whole decode. */
  function Required<T>(obj: Object, key: string, dec: JsonValue -> Result<T, DecodeError>): (r: Result<T, DecodeError>)
    ensures Lookup(obj, key) == JNull ==> r == Failure(MissingRequiredField(key))
    ensures Lookup(obj, key) != JNull ==> r == dec(obj[key])
  {
    if Lookup(obj, key) == JNull then Failure(MissingRequiredField(key)) else dec(obj[key])
  }

  /** A primitive int component of a Java record: an absent key or null
      leaves the component at 0. */
  function PrimitiveInt(obj: Object, key: string): (r: Result<Int32, DecodeError>)
    ensures Lookup(obj, key) == JNull ==> r == Success(0)
    ensures Lookup(obj, key) != JNull ==> r == AsInt32(obj[key], key)
  {
    if Lookup(obj, key) == JNull then Success(0) else AsInt32(obj[key], key)
  }

  /** Decodes every element of a wire array with `dec`, keeping the wire
      order; one failing element fails the whole array. */
  function DecodeEach<T>(items: seq<JsonValue>, dec: JsonValue -> Result<T, DecodeError>): (r: Result<seq<T>, DecodeError>)
    ensures r.Success? <==> forall i :: 0 <= i < |items| ==> dec(items[i]).Success?
    ensures r.Success? ==> |r.value| == |items|
    ensures r.Success? ==> forall i :: 0 <= i < |items| ==> dec(items[i]) == Success(r.value[i])
    ensures r.Failure? ==> exists i :: 0 <= i < |items| && dec(items[i]) == Failure(r.error)
                                     && forall k :: 0 <= k < i ==> dec(items[k]).Success?
    decreases |items|
  {
    if |items| == 0 then Success([])
    else
      match dec(items[0])
      case Failure(e) => Failure(e)
      case Success(x) =>
        match DecodeEach(items[1..], dec)
        case Failure(e) => Failure(e)
        case Success(xs) => Success([x] + xs)
  }

  /** A wire array whose elements all decode with `dec`. */
  function AsArray<T>(j: JsonValue, field: string, dec: JsonValue -> Result<T, DecodeError>): (r: Result<seq<T>, DecodeError>)
    ensures !j.JArray? ==> r == Failure(MalformedWireValue(field))
    ensures j.JArray? ==> r == DecodeEach(j.items, dec)
  {
    if j.JArray? then DecodeEach(j.items, dec) else Failure(MalformedWireValue(field))
  }

  function EncodeEach<T>(xs: seq<T>, enc: T -> JsonValue): (r: seq<JsonValue>)
    ensures |r| == |xs|
    ensures forall i :: 0 <= i < |xs| ==> r[i] == enc(xs[i])
  {
    seq(|xs|, i requires 0 <= i < |xs| => enc(xs[i]))
  }

  /** Arrays round-trip whenever their elements do. */
  lemma DecodeEncodeEach<T>(xs: seq<T>, enc: T -> JsonValue, dec: JsonValue -> Result<T, DecodeError>)
    requires forall i :: 0 <= i < |xs| ==> dec(enc(xs[i])) == Success(xs[i])
    ensures DecodeEach(EncodeEach(xs, enc), dec) == Success(xs)
  {
    var ys := EncodeEach(xs, enc);
    var r := DecodeEach(ys, dec);
    assert forall i :: 0 <= i < |ys| ==> dec(ys[i]).Success?;
    assert r.value == xs;
  }
}

/** The generic envelope of every paged list the API returns. */
module ListResponse {
  import opened Wrappers
  import opened Json

  datatype ListResponse<T> = ListResponse(
    objectTag: string,
    data: seq<T>,
    hasMore: bool,
    firstId: Option<string>,
    lastId: Option<string>)

  function NullableText(obj: Object, key: string): (r: Result<Option<string>, DecodeError>)
    ensures Lookup(obj, key) == JNull ==> r == Success(None)
    ensures r.Success? && r.value.Some? ==> obj[key] == JString(r.value.value)
    ensures Lookup(obj, key) != JNull ==> (r.Success? <==> obj[key].JString?)
  {
    Nullable(obj, key, (v: JsonValue) => AsString(v, key))
  }

  /** Decodes a list with `elem` for each element. `object`, `data` and
      `has_more` must be present and non-null; `first_id` and `last_id` may
      be missing or null. The elements keep their wire order. */
  function Decode<T>(j: JsonValue, elem: JsonValue -> Result<T, DecodeError>): (r: Result<ListResponse<T>, DecodeError>)
    ensures !j.JObject? ==> r.Failure?
    ensures j.JObject? && Lookup(j.fields, "object") == JNull ==> r == Failure(MissingRequiredField("object"))
    ensures j.JObject? && Lookup(j.fields, "object").JString? && Lookup(j.fields, "data") == JNull
            ==> r == Failure(MissingRequiredField("data"))
    ensures r.Success? ==> "object" in j.fields && "data" in j.fields && "has_more" in j.fields
    ensures r.Success? ==> j.fields["object"] == JString(r.value.objectTag)
    ensures r.Success? ==> j.fields["has_more"] == JBool(r.value.hasMore)
    ensures r.Success? ==> j.fields["data"].JArray? && |j.fields["data"].items| == |r.value.data|
    ensures r.Success? ==> forall i :: 0 <= i < |r.value.data| ==> elem(j.fields["data"].items[i]) == Success(r.value.data[i])
    ensures r.Success? ==> (r.value.firstId.None? <==> Lookup(j.fields, "first_id") == JNull)
    ensures r.Success? ==> (r.value.lastId.None? <==> Lookup(j.fields, "last_id") == JNull)
    ensures r.Success? ==> Lookup(j.fields, "first_id") == TextOrNull(r.value.firstId)
    ensures r.Success? ==> Lookup(j.fields, "last_id") == TextOrNull(r.value.lastId)
  {
    if !j.JObject? then Failure(MalformedWireValue("list"))
    else
      var obj := j.fields;
      var objectTag :- Required(obj, "object", (v: JsonValue) => AsString(v, "object"));
      var data :- Required(obj, "data", (v: JsonValue) => AsArray(v, "data", elem));
      var hasMore :- Required(obj, "has_more", (v: JsonValue) => AsBool(v, "has_more"));
      var firstId :- NullableText(obj, "first_id");
      var lastId :- NullableText(obj, "last_id");
      Success(ListResponse(objectTag, data, hasMore, firstId, lastId))
  }

  function TextOrNull(o: Option<string>): JsonValue {
    if o.Some? then JString(o.value) else JNull
  }

  function Encode<T>(l: ListResponse<T>, enc: T -> JsonValue): JsonValue {
    JObject(map[
      "object" := JString(l.objectTag),
      "data" := JArray(EncodeEach(l.data, enc)),
      "has_more" := JBool(l.hasMore),
      "first_id" := TextOrNull(l.firstId),
      "last_id" := TextOrNull(l.lastId)])
  }

  /** A list survives the wire whenever its elements do. */
  lemma RoundTrip<T>(l: ListResponse<T>, enc: T -> JsonValue, dec: JsonValue -> Result<T, DecodeError>)
    requires forall x :: dec(enc(x)) == Success(x)
    ensures Decode(Encode(l, enc), dec) == Success(l)
  {
    var obj := Encode(l, enc).fields;
    DecodeEncodeEach(l.data, enc, dec);
    assert Required(obj, "data", (v: JsonValue) => AsArray(v, "data", dec)) == Success(l.data);
    assert NullableText(obj, "first_id") == Success(l.firstId);
    assert NullableText(obj, "last_id") == Success(l.lastId);
  }

  /** Missing `has_more` fails the decode even when everything else is
      there. */
  lemma HasMoreRequired<T>(tag: string, elem: JsonValue -> Result<T, DecodeError>)
    ensures Decode(JObject(map["object" := JString(tag), "data" := JArray([])]), elem)
         == Failure(MissingRequiredField("has_more"))
  {
  }

  /** A page with no cursor ids decodes, with both ids absent. */
  lemma CursorIdsOptional<T>(tag: string, more: bool, elem: JsonValue -> Result<T, DecodeError>)
    ensures Decode(JObject(map["object" := JString(tag), "data" := JArray([]), "has_more" := JBool(more)]), elem)
         == Success(ListResponse(tag, [], more, None, None))
  {
    var obj := map["object" := JString(tag), "data" := JArray([]), "has_more" := JBool(more)];
    assert DecodeEach([], elem) == Success([]);
    assert Required(obj, "data", (v: JsonValue) => AsArray(v, "data", elem)) == Success([]);
  }

  /** Every page that decodes also decodes without its cursor ids, to the
      same list with both ids absent. */
  lemma CursorIdsOptionalAll<T>(obj: Object, elem: JsonValue -> Result<T, DecodeError>)
    requires Decode(JObject(obj), elem).Success?
    ensures Decode(JObject(obj - {"first_id", "last_id"}), elem)
         == Success(Decode(JObject(obj), elem).value.(firstId := None, lastId := None))
  {
    var o2 := obj - {"first_id", "last_id"};
    assert forall k :: k != "first_id" && k != "last_id" ==> Lookup(o2, k) == Lookup(obj, k);
  }

  /** Decoding is uniform in the element type: mapping the element decoder
      maps the decoded list. */
  lemma DecodeMapsElements<T, U>(j: JsonValue, dec: JsonValue -> Result<T, DecodeError>, f: T -> U)
    ensures Decode(j, dec).Success? ==> Decode(j, (v: JsonValue) => MapResult(dec(v), f)).Success?
    ensures Decode(j, dec).Success? ==>
      var l := Decode(j, dec).value;
      Decode(j, (v: JsonValue) => MapResult(dec(v), f)).value
        == ListResponse(l.objectTag, seq(|l.data|, i requires 0 <= i < |l.data| => f(l.data[i])), l.hasMore, l.firstId, l.lastId)
  {
    if Decode(j, dec).Success? {
      var l := Decode(j, dec).value;
      var g := (v: JsonValue) => MapResult(dec(v), f);
      var items := j.fields["data"].items;
      forall i | 0 <= i < |items| ensures g(items[i]).Success? {
        assert dec(items[i]) == Success(l.data[i]);
      }
      var m := Decode(j, g).value;
      assert |m.data| == |l.data|;
      forall i | 0 <= i < |l.data| ensures m.data[i] == f(l.data[i]) {
        assert dec(items[i]) == Success(l.data[i]);
      }
    }
  }

  function MapResult<T, U>(r: Result<T, DecodeError>, f: T -> U): (m: Result<U, DecodeError>)
    ensures m.Success? <==> r.Success?
    ensures r.Success? ==> m.value == f(r.value)
    ensures r.Failure? ==> m.error == r.error
  {
    match r
    case Success(v) => Success(f(v))
    case Failure(e) => Failure(e)
  }
}

/** The embedding record and its union-valued `embedding` attribute: either
    a numeric vector or a base64 string, whichever shape the wire carried.
    EmbeddingObject declares the same record around an identically written
    nested union class, so both are modelled by the types below. */
module Embeddings {
  import opened Wrappers
  import opened Json

  /** The state of the union class: the values its two accessors return. */
  datatype EmbeddingVector = EmbeddingVector(base64: Option<string>, doubleArray: Option<seq<Number>>) {

    /** Exactly one of the two accessors returns a non-null value. */
    predicate ExactlyOneForm() {
      base64.Some? != doubleArray.Some?
    }
  }

  /** The double[] constructor: stores the array and leaves base64 null. */
  function FromDoubleArray(doubleArray: Option<seq<Number>>): (v: EmbeddingVector)
    ensures v.doubleArray == doubleArray
    ensures v.base64 == None
  {
    EmbeddingVector(None, doubleArray)
  }

  /** The String constructor: stores the string and leaves the array null. */
  function FromBase64(base64: Option<string>): (v: EmbeddingVector)
    ensures v.base64 == base64
    ensures v.doubleArray == None
  {
    EmbeddingVector(base64, None)
  }

  /** Built from a non-null argument, the union holds exactly one form, and
      that form's accessor returns the argument unchanged; the two
      constructors never produce the same value. */
  lemma ExactlyOneForm(values: seq<Number>, text: string)
    ensures FromDoubleArray(Some(values)).ExactlyOneForm()
    ensures FromDoubleArray(Some(values)).doubleArray.value == values
    ensures FromBase64(Some(text)).ExactlyOneForm()
    ensures FromBase64(Some(text)).base64.value == text
    ensures FromDoubleArray(Some(values)) != FromBase64(Some(text))
  {
  }

  function AsNumberElement(j: JsonValue): Result<Number, DecodeError> {
    AsNumber(j, "embedding")
  }

  /** Jackson's choice between the two delegating creators: an array of
      numbers goes to the double[] constructor, a string to the String
      constructor, and any other shape fits neither. */
  function DecodeVector(j: JsonValue): (r: Result<EmbeddingVector, DecodeError>)
    ensures j.JString? ==> r == Success(FromBase64(Some(j.s)))
    ensures j.JArray? && r.Success? ==> r.value.base64 == None && r.value.doubleArray.Some?
    ensures j.JArray? && r.Success? ==> |r.value.doubleArray.value| == |j.items|
    ensures j.JArray? && r.Success? ==>
      forall i :: 0 <= i < |j.items| ==> j.items[i] == JNumber(r.value.doubleArray.value[i])
    ensures j.JArray? ==> (r.Success? <==> forall i :: 0 <= i < |j.items| ==> j.items[i].JNumber?)
    ensures j.JArray? && r.Failure? ==> r == Failure(MalformedWireValue("embedding"))
    ensures !j.JArray? && !j.JString? ==> r == Failure(UnrecognizedUnionShape(TypeName(j)))
    ensures r.Success? ==> r.value.ExactlyOneForm()
  {
    match j
    case JString(s) => Success(FromBase64(Some(s)))
    case JArray(items) =>
      (match DecodeEach(items, AsNumberElement)
       case Success(values) => Success(FromDoubleArray(Some(values)))
       case Failure(e) => Failure(e))
    case _ => Failure(UnrecognizedUnionShape(TypeName(j)))
  }

  /** The wire shape of the populated form. */
  function EncodeVector(v: EmbeddingVector): JsonValue {
    if v.doubleArray.Some? then JArray(EncodeEach(v.doubleArray.value, (n: Number) => JNumber(n)))
    else if v.base64.Some? then JString(v.base64.value)
    else JNull
  }

  /** A union holding one form decodes back from its own wire shape. */
  lemma VectorRoundTrip(v: EmbeddingVector)
    requires v.ExactlyOneForm()
    ensures DecodeVector(EncodeVector(v)) == Success(v)
  {
    if v.doubleArray.Some? {
      var values := v.doubleArray.value;
      DecodeEncodeEach(values, (n: Number) => JNumber(n), AsNumberElement);
    }
  }

  /** Decoding keeps the shape it was given: re-encoding gives the same wire
      value, with no conversion between the two forms. */
  lemma VectorShapePreserved(j: JsonValue)
    requires DecodeVector(j).Success?
    ensures EncodeVector(DecodeVector(j).value) == j
  {
    if j.JArray? {
      var values := DecodeVector(j).value.doubleArray.value;
      var back := EncodeEach(values, (n: Number) => JNumber(n));
      assert back == j.items;
    }
  }

  /** An element of the embedding list. */
  datatype Embedding = Embedding(index: Int32, embedding: EmbeddingVector, objectTag: string)

  /** The same record as declared by EmbeddingObject. */
  type EmbeddingObject = Embedding

  /** What the record's documentation promises: the tag is always
      "embedding", and the vector holds one form. */
  predicate WellFormed(e: Embedding) {
    e.objectTag == "embedding" && e.embedding.ExactlyOneForm()
  }

  /** Decodes one embedding; `index`, `embedding` and `object` are all
      mandatory, and the tag is carried as sent, not checked. */
  function DecodeEmbedding(j: JsonValue): (r: Result<Embedding, DecodeError>)
    ensures !j.JObject? ==> r == Failure(MalformedWireValue("embedding"))
    ensures j.JObject? && Lookup(j.fields, "index") == JNull ==> r == Failure(MissingRequiredField("index"))
    ensures j.JObject? && Lookup(j.fields, "embedding") == JNull ==> r.Failure?
    ensures j.JObject? && Lookup(j.fields, "object") == JNull ==> r.Failure?
    ensures r.Success? ==> j.fields["object"] == JString(r.value.objectTag)
    ensures r.Success? ==> j.fields["index"] == IntValue(r.value.index)
    ensures r.Success? ==> DecodeVector(j.fields["embedding"]) == Success(r.value.embedding)
    ensures r.Success? ==> r.value.embedding.ExactlyOneForm()
  {
    if !j.JObject? then Failure(MalformedWireValue("embedding"))
    else
      var obj := j.fields;
      var index :- Required(obj, "index", (v: JsonValue) => AsInt32(v, "index"));
      var embedding :- Required(obj, "embedding", DecodeVector);
      var objectTag :- Required(obj, "object", (v: JsonValue) => AsString(v, "object"));
      Success(Embedding(index, embedding, objectTag))
  }

  function EncodeEmbedding(e: Embedding): JsonValue {
    JObject(map["index" := IntValue(e.index), "embedding" := EncodeVector(e.embedding),
                "object" := JString(e.objectTag)])
  }

  /** Every embedding whose vector holds one form survives the wire. */
  lemma EmbeddingRoundTrip(e: Embedding)
    requires e.embedding.ExactlyOneForm()
    ensures DecodeEmbedding(EncodeEmbedding(e)) == Success(e)
  {
    VectorRoundTrip(e.embedding);
  }

  /** The "always embedding" tag is documentation only: a record with any
      other tag decodes just the same. */
  lemma ObjectTagNotEnforced(index: Int32, text: string, tag: string)
    ensures DecodeEmbedding(EncodeEmbedding(Embedding(index, FromBase64(Some(text)), tag))).Success?
    ensures tag != "embedding" ==> !WellFormed(Embedding(index, FromBase64(Some(text)), tag))
  {
    EmbeddingRoundTrip(Embedding(index, FromBase64(Some(text)), tag));
  }
}

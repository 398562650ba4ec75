/** What the two chat-completion response records share: the finish-reason
    enum with its wire strings, and the token-count invariant. */
module ChatCommon {
  import opened Wrappers
  import opened Json

  /** Why the model stopped generating. */
  datatype FinishReason = Stop | Length | ContentFilter | ToolCalls | FunctionCall {

    /** The wire string. */
    function Value(): string {
      match this
      case Stop => "stop"
      case Length => "length"
      case ContentFilter => "content_filter"
      case ToolCalls => "tool_calls"
      case FunctionCall => "function_call"
    }
  }

  /** The finish reason a wire string names; the inverse of Value. */
  function ParseFinishReason(s: string): (r: Option<FinishReason>)
    ensures r.Some? ==> r.value.Value() == s
    ensures r.None? ==> forall f: FinishReason :: f.Value() != s
  {
    match s
    case "stop" => Some(Stop)
    case "length" => Some(Length)
    case "content_filter" => Some(ContentFilter)
    case "tool_calls" => Some(ToolCalls)
    case "function_call" => Some(FunctionCall)
    case _ => None
  }

  /** Decoding inverts encoding, so distinct reasons have distinct strings. */
  lemma FinishReasonRoundTrip(f: FinishReason, g: FinishReason)
    ensures ParseFinishReason(f.Value()) == Some(f)
    ensures f.Value() == g.Value() ==> f == g
  {
  }

  /** A finish_reason value: one of the five strings; any other string, or
      any other shape, fails the decode. */
  function DecodeFinishReason(j: JsonValue): (r: Result<FinishReason, DecodeError>)
    ensures r.Success? <==> j.JString? && ParseFinishReason(j.s).Some?
    ensures r.Success? ==> j == JString(r.value.Value())
    ensures j.JString? && r.Failure? ==> r.error == UnknownEnumValue("finish_reason", j.s)
  {
    if !j.JString? then Failure(MalformedWireValue("finish_reason"))
    else
      match ParseFinishReason(j.s)
      case Some(f) => Success(f)
      case None => Failure(UnknownEnumValue("finish_reason", j.s))
  }

  function EncodeFinishReason(f: FinishReason): JsonValue {
    JString(f.Value())
  }

  /** The documented usage invariant: the total is prompt plus completion. */
  predicate TokensAddUp(promptTokens: int, completionTokens: int, totalTokens: int) {
    totalTokens == promptTokens + completionTokens
  }

  /** A primitive double component: an absent key or null leaves it 0.0. */
  function PrimitiveDouble(obj: Object, key: string): (r: Result<Number, DecodeError>)
    ensures Lookup(obj, key) == JNull ==> r == Success(Number(0, 0))
    ensures Lookup(obj, key) != JNull ==> r == AsNumber(obj[key], key)
  {
    if Lookup(obj, key) == JNull then Success(Number(0, 0)) else AsNumber(obj[key], key)
  }

  function NullableString(obj: Object, key: string): (r: Result<Option<string>, DecodeError>)
    ensures Lookup(obj, key) == JNull ==> r == Success(None)
    ensures Lookup(obj, key) != JNull ==> (r.Success? <==> obj[key].JString?)
    ensures r.Success? && r.value.Some? ==> obj[key] == JString(r.value.value)
  {
    Nullable(obj, key, (v: JsonValue) => AsString(v, key))
  }

  /** A key that reads alike in two objects gives the same string, int,
      double and int-list components. */
  lemma SameLookupComponents(o1: Object, o2: Object, key: string)
    requires Lookup(o1, key) == Lookup(o2, key)
    ensures NullableString(o1, key) == NullableString(o2, key)
    ensures PrimitiveInt(o1, key) == PrimitiveInt(o2, key)
    ensures PrimitiveDouble(o1, key) == PrimitiveDouble(o2, key)
    ensures NullableInts(o1, key) == NullableInts(o2, key)
  {
  }

  function StringOrNull(o: Option<string>): JsonValue {
    if o.Some? then JString(o.value) else JNull
  }

  lemma StringRoundTrip(obj: Object, key: string, o: Option<string>)
    requires Lookup(obj, key) == StringOrNull(o)
    ensures NullableString(obj, key) == Success(o)
  {
  }

  /** The nullable list of ints used for token bytes. */
  function NullableInts(obj: Object, key: string): Result<Option<seq<Int32>>, DecodeError> {
    Nullable(obj, key, (v: JsonValue) => AsArray(v, key, (e: JsonValue) => AsInt32(e, key)))
  }

  function IntsOrNull(o: Option<seq<Int32>>): JsonValue {
    if o.Some? then JArray(EncodeEach(o.value, IntValue)) else JNull
  }

  lemma IntsRoundTrip(obj: Object, key: string, o: Option<seq<Int32>>)
    requires Lookup(obj, key) == IntsOrNull(o)
    ensures NullableInts(obj, key) == Success(o)
  {
    if o.Some? {
      DecodeEncodeEach(o.value, IntValue, (e: JsonValue) => AsInt32(e, key));
    }
  }

  /** The documented choice invariant: each element's own index is its
      position in the list. */
  predicate IndexedByPosition<T>(xs: seq<T>, index: T -> int) {
    forall i :: 0 <= i < |xs| ==> index(xs[i]) == i
  }

  /** Checks the choice invariant in one pass over the list. */
  method CheckIndexedByPosition<T>(xs: seq<T>, index: T -> int) returns (ok: bool)
    ensures ok <==> IndexedByPosition(xs, index)
  {
    var i := 0;
    while i < |xs|
      invariant 0 <= i <= |xs|
      invariant forall j :: 0 <= j < i ==> index(xs[j]) == j
    {
      if index(xs[i]) != i {
        return false;
      }
      i := i + 1;
    }
    return true;
  }
}

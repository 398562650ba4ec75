/** The chat-completion response record (the variant with service tier,
    refusal, log probabilities and reasoning-token details): its decoding
    from wire keys, and the invariants its documentation states. */
module ChatCompletionResponse {
  import opened Wrappers
  import opened Json
  import opened ChatCommon

  datatype CompletionTokensDetails = CompletionTokensDetails(reasoningTokens: Int32)

  datatype Usage = Usage(
    completionTokens: Int32,
    promptTokens: Int32,
    totalTokens: Int32,
    completionTokensDetails: Option<CompletionTokensDetails>)

  /** `bytes` is null when the token has no byte representation. */
  datatype TopLogprob = TopLogprob(token: Option<string>, logprob: Number, bytes: Option<seq<Int32>>)

  datatype Logprob = Logprob(
    token: Option<string>,
    logprob: Number,
    bytes: Option<seq<Int32>>,
    topLogprobs: Option<seq<TopLogprob>>)

  datatype Logprobs = Logprobs(content: Option<seq<Logprob>>)

  /** `toolCalls` holds the shared ToolCall records undecoded. */
  datatype Message = Message(
    content: Option<string>,
    refusal: Option<string>,
    toolCalls: Option<seq<JsonValue>>,
    role: Option<string>)

  datatype Choice = Choice(
    index: Int32,
    finishReason: Option<FinishReason>,
    message: Option<Message>,
    logprobs: Option<Logprobs>)

  datatype Response = Response(
    id: Option<string>,
    choices: Option<seq<Choice>>,
    created: Int32,
    model: Option<string>,
    serviceTier: Option<string>,
    systemFingerprint: Option<string>,
    objectTag: Option<string>,
    usage: Option<Usage>)

  // Decoding. A record component of reference type is null when its key is
  // absent or null; a primitive component is 0 then.

  /** An alternative token: token, logprob and bytes from their own keys. */
  function DecodeTopLogprob(j: JsonValue): (r: Result<TopLogprob, DecodeError>)
    ensures r.Success? ==> j.JObject?
    ensures r.Success? ==> Lookup(j.fields, "token") == StringOrNull(r.value.token)
    ensures r.Success? && Lookup(j.fields, "logprob") == JNull ==> r.value.logprob == Number(0, 0)
    ensures r.Success? && Lookup(j.fields, "logprob") != JNull ==> Lookup(j.fields, "logprob") == JNumber(r.value.logprob)
    ensures r.Success? ==> Lookup(j.fields, "bytes") == IntsOrNull(r.value.bytes)
  {
    if !j.JObject? then Failure(MalformedWireValue("top_logprob"))
    else
      var obj := j.fields;
      var token :- NullableString(obj, "token");
      var logprob :- PrimitiveDouble(obj, "logprob");
      var bytes :- NullableInts(obj, "bytes");
      Success(TopLogprob(token, logprob, bytes))
  }

  /** A token's log probability; the list of alternatives is read from the
      key "topLogprobs", the component's own name, as no rename is declared. */
  function DecodeLogprob(j: JsonValue): (r: Result<Logprob, DecodeError>)
    ensures r.Success? ==> j.JObject?
    ensures r.Success? ==> Lookup(j.fields, "token") == StringOrNull(r.value.token)
    ensures r.Success? && Lookup(j.fields, "logprob") == JNull ==> r.value.logprob == Number(0, 0)
    ensures r.Success? && Lookup(j.fields, "logprob") != JNull ==> Lookup(j.fields, "logprob") == JNumber(r.value.logprob)
    ensures r.Success? ==> (r.value.bytes.None? <==> Lookup(j.fields, "bytes") == JNull)
    ensures r.Success? ==> Lookup(j.fields, "bytes") == IntsOrNull(r.value.bytes)
    ensures r.Success? ==> (r.value.topLogprobs.None? <==> Lookup(j.fields, "topLogprobs") == JNull)
    ensures r.Success? && r.value.topLogprobs.Some? ==>
      AsArray(Lookup(j.fields, "topLogprobs"), "topLogprobs", DecodeTopLogprob) == Success(r.value.topLogprobs.value)
  {
    if !j.JObject? then Failure(MalformedWireValue("logprob"))
    else
      var obj := j.fields;
      var token :- NullableString(obj, "token");
      var logprob :- PrimitiveDouble(obj, "logprob");
      var bytes :- NullableInts(obj, "bytes");
      var top :- Nullable(obj, "topLogprobs", (v: JsonValue) => AsArray(v, "topLogprobs", DecodeTopLogprob));
      Success(Logprob(token, logprob, bytes, top))
  }

  function DecodeLogprobs(j: JsonValue): (r: Result<Logprobs, DecodeError>)
    ensures r.Success? ==> j.JObject?
    ensures r.Success? ==> (r.value.content.None? <==> Lookup(j.fields, "content") == JNull)
    ensures r.Success? && r.value.content.Some? ==>
      AsArray(Lookup(j.fields, "content"), "content", DecodeLogprob) == Success(r.value.content.value)
  {
    if !j.JObject? then Failure(MalformedWireValue("logprobs"))
    else
      var content :- Nullable(j.fields, "content", (v: JsonValue) => AsArray(v, "content", DecodeLogprob));
      Success(Logprobs(content))
  }

  function AnyValue(j: JsonValue): Result<JsonValue, DecodeError> {
    Success(j)
  }

  /** The message's strings come from their own keys; tool_calls must be an
      array, whose elements are kept as sent. */
  function DecodeMessage(j: JsonValue): (r: Result<Message, DecodeError>)
    ensures r.Success? ==> j.JObject?
    ensures r.Success? ==> Lookup(j.fields, "content") == StringOrNull(r.value.content)
    ensures r.Success? ==> Lookup(j.fields, "refusal") == StringOrNull(r.value.refusal)
    ensures r.Success? ==> Lookup(j.fields, "role") == StringOrNull(r.value.role)
    ensures r.Success? ==> (r.value.toolCalls.None? <==> Lookup(j.fields, "tool_calls") == JNull)
    ensures r.Success? && r.value.toolCalls.Some? ==> Lookup(j.fields, "tool_calls") == JArray(r.value.toolCalls.value)
  {
    if !j.JObject? then Failure(MalformedWireValue("message"))
    else
      var obj := j.fields;
      var content :- NullableString(obj, "content");
      var refusal :- NullableString(obj, "refusal");
      var toolCalls :- Nullable(obj, "tool_calls", (v: JsonValue) => AsArray(v, "tool_calls", AnyValue));
      var role :- NullableString(obj, "role");
      Success(Message(content, refusal, toolCalls, role))
  }

  /** A choice: the primitive index is 0 when absent, the rest is nullable. */
  function DecodeChoice(j: JsonValue): (r: Result<Choice, DecodeError>)
    ensures r.Success? ==> j.JObject?
    ensures r.Success? ==> Lookup(j.fields, "index") in {JNull, IntValue(r.value.index)}
    ensures r.Success? && Lookup(j.fields, "index") == JNull ==> r.value.index == 0
    ensures r.Success? ==> (r.value.finishReason.None? <==> Lookup(j.fields, "finish_reason") == JNull)
    ensures r.Success? && r.value.finishReason.Some? ==> Lookup(j.fields, "finish_reason") == JString(r.value.finishReason.value.Value())
    ensures r.Success? ==> (r.value.message.None? <==> Lookup(j.fields, "message") == JNull)
    ensures r.Success? && r.value.message.Some? ==> DecodeMessage(Lookup(j.fields, "message")) == Success(r.value.message.value)
    ensures r.Success? ==> (r.value.logprobs.None? <==> Lookup(j.fields, "logprobs") == JNull)
    ensures r.Success? && r.value.logprobs.Some? ==> DecodeLogprobs(Lookup(j.fields, "logprobs")) == Success(r.value.logprobs.value)
  {
    if !j.JObject? then Failure(MalformedWireValue("choice"))
    else
      var obj := j.fields;
      var index :- PrimitiveInt(obj, "index");
      var finishReason :- Nullable(obj, "finish_reason", DecodeFinishReason);
      var message :- Nullable(obj, "message", DecodeMessage);
      var logprobs :- Nullable(obj, "logprobs", DecodeLogprobs);
      Success(Choice(index, finishReason, message, logprobs))
  }

  /** The details record: reasoning_tokens, 0 when absent. */
  function DecodeDetails(j: JsonValue): (r: Result<CompletionTokensDetails, DecodeError>)
    ensures r.Success? ==> j.JObject?
    ensures r.Success? ==> Lookup(j.fields, "reasoning_tokens") in {JNull, IntValue(r.value.reasoningTokens)}
    ensures r.Success? && Lookup(j.fields, "reasoning_tokens") == JNull ==> r.value.reasoningTokens == 0
  {
    if !j.JObject? then Failure(MalformedWireValue("completion_tokens_details"))
    else
      var reasoning :- PrimitiveInt(j.fields, "reasoning_tokens");
      Success(CompletionTokensDetails(reasoning))
  }

  /** Usage counts come from their snake_case keys; a missing count is 0. */
  function DecodeUsage(j: JsonValue): (r: Result<Usage, DecodeError>)
    ensures r.Success? ==> j.JObject?
    ensures r.Success? ==> Lookup(j.fields, "completion_tokens") in {JNull, IntValue(r.value.completionTokens)}
    ensures r.Success? ==> Lookup(j.fields, "prompt_tokens") in {JNull, IntValue(r.value.promptTokens)}
    ensures r.Success? ==> Lookup(j.fields, "total_tokens") in {JNull, IntValue(r.value.totalTokens)}
    ensures r.Success? && Lookup(j.fields, "completion_tokens") == JNull ==> r.value.completionTokens == 0
    ensures r.Success? && Lookup(j.fields, "prompt_tokens") == JNull ==> r.value.promptTokens == 0
    ensures r.Success? && Lookup(j.fields, "total_tokens") == JNull ==> r.value.totalTokens == 0
    ensures r.Success? ==> (r.value.completionTokensDetails.None? <==> Lookup(j.fields, "completion_tokens_details") == JNull)
    ensures r.Success? && r.value.completionTokensDetails.Some? ==>
      DecodeDetails(Lookup(j.fields, "completion_tokens_details")) == Success(r.value.completionTokensDetails.value)
  {
    if !j.JObject? then Failure(MalformedWireValue("usage"))
    else
      var obj := j.fields;
      var completion :- PrimitiveInt(obj, "completion_tokens");
      var prompt :- PrimitiveInt(obj, "prompt_tokens");
      var total :- PrimitiveInt(obj, "total_tokens");
      var details :- Nullable(obj, "completion_tokens_details", DecodeDetails);
      Success(Usage(completion, prompt, total, details))
  }

  /** The response record. Every component is read from its own wire key,
      the renamed ones from service_tier and system_fingerprint; nothing is
      checked beyond the shape of each value. */
  function DecodeResponse(j: JsonValue): (r: Result<Response, DecodeError>)
    ensures !j.JObject? ==> r.Failure?
    ensures r.Success? ==> Lookup(j.fields, "id") == StringOrNull(r.value.id)
    ensures r.Success? ==> Lookup(j.fields, "model") == StringOrNull(r.value.model)
    ensures r.Success? ==> Lookup(j.fields, "service_tier") == StringOrNull(r.value.serviceTier)
    ensures r.Success? ==> Lookup(j.fields, "system_fingerprint") == StringOrNull(r.value.systemFingerprint)
    ensures r.Success? ==> Lookup(j.fields, "object") == StringOrNull(r.value.objectTag)
    ensures r.Success? ==> Lookup(j.fields, "created") in {JNull, IntValue(r.value.created)}
    ensures r.Success? && Lookup(j.fields, "created") == JNull ==> r.value.created == 0
    ensures r.Success? ==> (r.value.choices.None? <==> Lookup(j.fields, "choices") == JNull)
    ensures r.Success? && r.value.choices.Some? ==>
      AsArray(Lookup(j.fields, "choices"), "choices", DecodeChoice) == Success(r.value.choices.value)
    ensures r.Success? ==> (r.value.usage.None? <==> Lookup(j.fields, "usage") == JNull)
    ensures r.Success? && r.value.usage.Some? ==> DecodeUsage(Lookup(j.fields, "usage")) == Success(r.value.usage.value)
  {
    if !j.JObject? then Failure(MalformedWireValue("chat.completion"))
    else
      var obj := j.fields;
      var id :- NullableString(obj, "id");
      var choices :- Nullable(obj, "choices", (v: JsonValue) => AsArray(v, "choices", DecodeChoice));
      var created :- PrimitiveInt(obj, "created");
      var model :- NullableString(obj, "model");
      var serviceTier :- NullableString(obj, "service_tier");
      var systemFingerprint :- NullableString(obj, "system_fingerprint");
      var objectTag :- NullableString(obj, "object");
      var usage :- Nullable(obj, "usage", DecodeUsage);
      Success(Response(id, choices, created, model, serviceTier, systemFingerprint, objectTag, usage))
  }

  // Encoding: the wire form the API produces, with null for a null component.

  function EncodeTopLogprob(t: TopLogprob): JsonValue {
    JObject(map["token" := StringOrNull(t.token), "logprob" := JNumber(t.logprob), "bytes" := IntsOrNull(t.bytes)])
  }

  function EncodeLogprob(l: Logprob): JsonValue {
    JObject(map["token" := StringOrNull(l.token), "logprob" := JNumber(l.logprob), "bytes" := IntsOrNull(l.bytes),
                "topLogprobs" := if l.topLogprobs.Some? then JArray(EncodeEach(l.topLogprobs.value, EncodeTopLogprob)) else JNull])
  }

  function EncodeLogprobs(l: Logprobs): JsonValue {
    JObject(map["content" := if l.content.Some? then JArray(EncodeEach(l.content.value, EncodeLogprob)) else JNull])
  }

  function EncodeMessage(m: Message): JsonValue {
    JObject(map["content" := StringOrNull(m.content), "refusal" := StringOrNull(m.refusal),
                "tool_calls" := (if m.toolCalls.Some? then JArray(m.toolCalls.value) else JNull),
                "role" := StringOrNull(m.role)])
  }

  function EncodeChoice(c: Choice): JsonValue {
    JObject(map["index" := IntValue(c.index),
                "finish_reason" := (if c.finishReason.Some? then EncodeFinishReason(c.finishReason.value) else JNull),
                "message" := (if c.message.Some? then EncodeMessage(c.message.value) else JNull),
                "logprobs" := (if c.logprobs.Some? then EncodeLogprobs(c.logprobs.value) else JNull)])
  }

  function EncodeUsage(u: Usage): JsonValue {
    JObject(map["completion_tokens" := IntValue(u.completionTokens), "prompt_tokens" := IntValue(u.promptTokens),
                "total_tokens" := IntValue(u.totalTokens),
                "completion_tokens_details" := (if u.completionTokensDetails.Some?
                  then JObject(map["reasoning_tokens" := IntValue(u.completionTokensDetails.value.reasoningTokens)])
                  else JNull)])
  }

  function EncodeResponse(r: Response): JsonValue {
    JObject(map["id" := StringOrNull(r.id),
                "choices" := (if r.choices.Some? then JArray(EncodeEach(r.choices.value, EncodeChoice)) else JNull),
                "created" := IntValue(r.created),
                "model" := StringOrNull(r.model),
                "service_tier" := StringOrNull(r.serviceTier),
                "system_fingerprint" := StringOrNull(r.systemFingerprint),
                "object" := StringOrNull(r.objectTag),
                "usage" := (if r.usage.Some? then EncodeUsage(r.usage.value) else JNull)])
  }

  // Round trips, innermost first.

  lemma TopLogprobRoundTrip(t: TopLogprob)
    ensures DecodeTopLogprob(EncodeTopLogprob(t)) == Success(t)
  {
    IntsRoundTrip(EncodeTopLogprob(t).fields, "bytes", t.bytes);
  }

  lemma LogprobRoundTrip(l: Logprob)
    ensures DecodeLogprob(EncodeLogprob(l)) == Success(l)
  {
    var obj := EncodeLogprob(l).fields;
    IntsRoundTrip(obj, "bytes", l.bytes);
    if l.topLogprobs.Some? {
      var xs := l.topLogprobs.value;
      forall i | 0 <= i < |xs| ensures DecodeTopLogprob(EncodeTopLogprob(xs[i])) == Success(xs[i]) {
        TopLogprobRoundTrip(xs[i]);
      }
      DecodeEncodeEach(xs, EncodeTopLogprob, DecodeTopLogprob);
    }
  }

  lemma LogprobsRoundTrip(l: Logprobs)
    ensures DecodeLogprobs(EncodeLogprobs(l)) == Success(l)
  {
    if l.content.Some? {
      var xs := l.content.value;
      forall i | 0 <= i < |xs| ensures DecodeLogprob(EncodeLogprob(xs[i])) == Success(xs[i]) {
        LogprobRoundTrip(xs[i]);
      }
      DecodeEncodeEach(xs, EncodeLogprob, DecodeLogprob);
    }
  }

  lemma MessageRoundTrip(m: Message)
    ensures DecodeMessage(EncodeMessage(m)) == Success(m)
  {
    if m.toolCalls.Some? {
      DecodeEncodeEach(m.toolCalls.value, (v: JsonValue) => v, AnyValue);
      assert EncodeEach(m.toolCalls.value, (v: JsonValue) => v) == m.toolCalls.value;
    }
  }

  lemma ChoiceRoundTrip(c: Choice)
    ensures DecodeChoice(EncodeChoice(c)) == Success(c)
  {
    var obj := EncodeChoice(c).fields;
    if c.finishReason.Some? {
      FinishReasonRoundTrip(c.finishReason.value, c.finishReason.value);
    }
    NullableRoundTrip(obj, "finish_reason", c.finishReason, EncodeFinishReason, DecodeFinishReason);
    if c.message.Some? {
      MessageRoundTrip(c.message.value);
    }
    NullableRoundTrip(obj, "message", c.message, EncodeMessage, DecodeMessage);
    if c.logprobs.Some? {
      LogprobsRoundTrip(c.logprobs.value);
    }
    NullableRoundTrip(obj, "logprobs", c.logprobs, EncodeLogprobs, DecodeLogprobs);
    assert PrimitiveInt(obj, "index") == Success(c.index);
  }

  lemma UsageRoundTrip(u: Usage)
    ensures DecodeUsage(EncodeUsage(u)) == Success(u)
  {
  }

  /** Every response survives the wire, whether or not it satisfies its
      documented invariants: decoding checks none of them. */
  lemma ResponseRoundTrip(r: Response)
    ensures DecodeResponse(EncodeResponse(r)) == Success(r)
  {
    var obj := EncodeResponse(r).fields;
    ResponseStringsRoundTrip(r);
    ResponseNestedRoundTrip(r);
    assert PrimitiveInt(obj, "created") == Success(r.created);
  }

  lemma ResponseStringsRoundTrip(r: Response)
    ensures var obj := EncodeResponse(r).fields;
      && NullableString(obj, "id") == Success(r.id)
      && NullableString(obj, "model") == Success(r.model)
      && NullableString(obj, "service_tier") == Success(r.serviceTier)
      && NullableString(obj, "system_fingerprint") == Success(r.systemFingerprint)
      && NullableString(obj, "object") == Success(r.objectTag)
  {
    var obj := EncodeResponse(r).fields;
    StringRoundTrip(obj, "id", r.id);
    StringRoundTrip(obj, "model", r.model);
    StringRoundTrip(obj, "service_tier", r.serviceTier);
    StringRoundTrip(obj, "system_fingerprint", r.systemFingerprint);
    StringRoundTrip(obj, "object", r.objectTag);
  }

  lemma ResponseNestedRoundTrip(r: Response)
    ensures var obj := EncodeResponse(r).fields;
      && Nullable(obj, "choices", (v: JsonValue) => AsArray(v, "choices", DecodeChoice)) == Success(r.choices)
      && Nullable(obj, "usage", DecodeUsage) == Success(r.usage)
  {
    ChoicesRoundTrip(r);
    if r.usage.Some? {
      UsageRoundTrip(r.usage.value);
    }
    NullableRoundTrip(EncodeResponse(r).fields, "usage", r.usage, EncodeUsage, DecodeUsage);
  }

  lemma ChoicesRoundTrip(r: Response)
    ensures Nullable(EncodeResponse(r).fields, "choices", (v: JsonValue) => AsArray(v, "choices", DecodeChoice)) == Success(r.choices)
  {
    if r.choices.Some? {
      var xs := r.choices.value;
      forall i | 0 <= i < |xs| ensures DecodeChoice(EncodeChoice(xs[i])) == Success(xs[i]) {
        ChoiceRoundTrip(xs[i]);
      }
      DecodeEncodeEach(xs, EncodeChoice, DecodeChoice);
    }
  }

  /** A log probability entry without `bytes`, or with null there, decodes
      with no byte representation. */
  lemma LogprobBytesMayBeNull(token: string, logprob: Number, explicitNull: bool)
    ensures var obj := if explicitNull then map["token" := JString(token), "logprob" := JNumber(logprob), "bytes" := JNull]
                       else map["token" := JString(token), "logprob" := JNumber(logprob)];
      DecodeLogprob(JObject(obj)) == Success(Logprob(Some(token), logprob, None, None))
  {
  }

  // A key left out reads like an explicit null: every record decodes the
  // same from two objects that read alike under every key, so a response
  // without an optional key (service_tier, say) decodes like one with null.

  lemma TopLogprobAbsentIsNull(o1: Object, o2: Object)
    requires SameLookups(o1, o2)
    ensures DecodeTopLogprob(JObject(o1)) == DecodeTopLogprob(JObject(o2))
  {
    SameLookupComponents(o1, o2, "token");
    SameLookupComponents(o1, o2, "logprob");
    SameLookupComponents(o1, o2, "bytes");
  }

  lemma LogprobAbsentIsNull(o1: Object, o2: Object)
    requires SameLookups(o1, o2)
    ensures DecodeLogprob(JObject(o1)) == DecodeLogprob(JObject(o2))
  {
    SameLookupComponents(o1, o2, "token");
    SameLookupComponents(o1, o2, "logprob");
    SameLookupComponents(o1, o2, "bytes");
    SameLookupAttributes(o1, o2, "topLogprobs", (v: JsonValue) => AsArray(v, "topLogprobs", DecodeTopLogprob));
  }

  lemma LogprobsAbsentIsNull(o1: Object, o2: Object)
    requires SameLookups(o1, o2)
    ensures DecodeLogprobs(JObject(o1)) == DecodeLogprobs(JObject(o2))
  {
    SameLookupAttributes(o1, o2, "content", (v: JsonValue) => AsArray(v, "content", DecodeLogprob));
  }

  lemma MessageAbsentIsNull(o1: Object, o2: Object)
    requires SameLookups(o1, o2)
    ensures DecodeMessage(JObject(o1)) == DecodeMessage(JObject(o2))
  {
    SameLookupComponents(o1, o2, "content");
    SameLookupComponents(o1, o2, "refusal");
    SameLookupComponents(o1, o2, "role");
    SameLookupAttributes(o1, o2, "tool_calls", (v: JsonValue) => AsArray(v, "tool_calls", AnyValue));
  }

  lemma ChoiceAbsentIsNull(o1: Object, o2: Object)
    requires SameLookups(o1, o2)
    ensures DecodeChoice(JObject(o1)) == DecodeChoice(JObject(o2))
  {
    SameLookupComponents(o1, o2, "index");
    SameLookupAttributes(o1, o2, "finish_reason", DecodeFinishReason);
    SameLookupAttributes(o1, o2, "message", DecodeMessage);
    SameLookupAttributes(o1, o2, "logprobs", DecodeLogprobs);
  }

  lemma DetailsAbsentIsNull(o1: Object, o2: Object)
    requires SameLookups(o1, o2)
    ensures DecodeDetails(JObject(o1)) == DecodeDetails(JObject(o2))
  {
    SameLookupComponents(o1, o2, "reasoning_tokens");
  }

  lemma UsageAbsentIsNull(o1: Object, o2: Object)
    requires SameLookups(o1, o2)
    ensures DecodeUsage(JObject(o1)) == DecodeUsage(JObject(o2))
  {
    SameLookupComponents(o1, o2, "completion_tokens");
    SameLookupComponents(o1, o2, "prompt_tokens");
    SameLookupComponents(o1, o2, "total_tokens");
    SameLookupAttributes(o1, o2, "completion_tokens_details", DecodeDetails);
  }

  lemma ResponseAbsentIsNull(o1: Object, o2: Object)
    requires SameLookups(o1, o2)
    ensures DecodeResponse(JObject(o1)) == DecodeResponse(JObject(o2))
  {
    SameLookupComponents(o1, o2, "id");
    SameLookupAttributes(o1, o2, "choices", (v: JsonValue) => AsArray(v, "choices", DecodeChoice));
    SameLookupComponents(o1, o2, "created");
    SameLookupComponents(o1, o2, "model");
    SameLookupComponents(o1, o2, "service_tier");
    SameLookupComponents(o1, o2, "system_fingerprint");
    SameLookupComponents(o1, o2, "object");
    SameLookupAttributes(o1, o2, "usage", DecodeUsage);
  }

  // The invariants the documentation states; decoding enforces none of them.

  predicate UsageConsistent(u: Usage) {
    TokensAddUp(u.promptTokens, u.completionTokens, u.totalTokens)
  }

  function ChoiceIndex(c: Choice): int {
    c.index
  }

  predicate WellFormed(r: Response) {
    && r.objectTag == Some("chat.completion")
    && (r.choices.Some? ==> IndexedByPosition(r.choices.value, ChoiceIndex))
    && (r.usage.Some? ==> UsageConsistent(r.usage.value))
  }

  /** Decides the documented invariants of a decoded response. */
  method CheckWellFormed(r: Response) returns (ok: bool)
    ensures ok <==> WellFormed(r)
    ensures ok ==> r.objectTag == Some("chat.completion")
    ensures ok && r.usage.Some? ==> r.usage.value.totalTokens == r.usage.value.promptTokens + r.usage.value.completionTokens
    ensures ok && r.choices.Some? ==> forall i :: 0 <= i < |r.choices.value| ==> r.choices.value[i].index == i
  {
    if r.objectTag != Some("chat.completion") {
      return false;
    }
    if r.usage.Some? && !UsageConsistent(r.usage.value) {
      return false;
    }
    ok := true;
    if r.choices.Some? {
      ok := CheckIndexedByPosition(r.choices.value, ChoiceIndex);
    }
  }
}

/** The older chat-completions response record: no service tier, refusal,
    log probabilities or token details, and its own tool-call record whose
    type is documented to be "function". */
module ChatCompletionsResponse {
  import opened Wrappers
  import opened Json
  import opened ChatCommon

  /** `functionCall` (wire key "function") holds the called function's name and arguments undecoded. */
  datatype ToolCall = ToolCall(id: Option<string>, toolType: Option<string>, functionCall: JsonValue)

  datatype Message = Message(content: Option<string>, toolCalls: Option<seq<ToolCall>>, role: Option<string>)

  datatype Choice = Choice(index: Int32, finishReason: Option<FinishReason>, message: Option<Message>)

  datatype Usage = Usage(completionTokens: Int32, promptTokens: Int32, totalTokens: Int32)

  datatype Response = Response(
    id: Option<string>,
    choices: Option<seq<Choice>>,
    created: Int32,
    model: Option<string>,
    systemFingerprint: Option<string>,
    objectTag: Option<string>,
    usage: Option<Usage>)

  /** The tool call is read from id, type and function; its type is taken as
      sent, without checking it against "function". */
  function DecodeToolCall(j: JsonValue): (r: Result<ToolCall, DecodeError>)
    ensures r.Success? <==> j.JObject? && (Lookup(j.fields, "id").JNull? || Lookup(j.fields, "id").JString?)
                                       && (Lookup(j.fields, "type").JNull? || Lookup(j.fields, "type").JString?)
    ensures r.Success? ==> r.value.functionCall == Lookup(j.fields, "function")
    ensures r.Success? ==> StringOrNull(r.value.id) == Lookup(j.fields, "id")
    ensures r.Success? ==> StringOrNull(r.value.toolType) == Lookup(j.fields, "type")
  {
    if !j.JObject? then Failure(MalformedWireValue("tool_call"))
    else
      var obj := j.fields;
      var id :- NullableString(obj, "id");
      var toolType :- NullableString(obj, "type");
      Success(ToolCall(id, toolType, Lookup(obj, "function")))
  }

  /** The message's strings come from their own keys; tool_calls is an
      array of tool-call records. */
  function DecodeMessage(j: JsonValue): (r: Result<Message, DecodeError>)
    ensures r.Success? ==> j.JObject?
    ensures r.Success? ==> Lookup(j.fields, "content") == StringOrNull(r.value.content)
    ensures r.Success? ==> Lookup(j.fields, "role") == StringOrNull(r.value.role)
    ensures r.Success? ==> (r.value.toolCalls.None? <==> Lookup(j.fields, "tool_calls") == JNull)
    ensures r.Success? && r.value.toolCalls.Some? ==>
      AsArray(Lookup(j.fields, "tool_calls"), "tool_calls", DecodeToolCall) == Success(r.value.toolCalls.value)
  {
    if !j.JObject? then Failure(MalformedWireValue("message"))
    else
      var obj := j.fields;
      var content :- NullableString(obj, "content");
      var toolCalls :- Nullable(obj, "tool_calls", (v: JsonValue) => AsArray(v, "tool_calls", DecodeToolCall));
      var role :- NullableString(obj, "role");
      Success(Message(content, toolCalls, role))
  }

  function DecodeChoice(j: JsonValue): (r: Result<Choice, DecodeError>)
    ensures r.Success? ==> j.JObject?
    ensures r.Success? ==> (r.value.finishReason.None? <==> Lookup(j.fields, "finish_reason") == JNull)
    ensures r.Success? && r.value.finishReason.Some? ==> j.fields["finish_reason"] == JString(r.value.finishReason.value.Value())
    ensures r.Success? ==> Lookup(j.fields, "index") in {JNull, IntValue(r.value.index)}
    ensures r.Success? && Lookup(j.fields, "index") == JNull ==> r.value.index == 0
    ensures r.Success? ==> (r.value.message.None? <==> Lookup(j.fields, "message") == JNull)
    ensures r.Success? && r.value.message.Some? ==> DecodeMessage(Lookup(j.fields, "message")) == Success(r.value.message.value)
  {
    if !j.JObject? then Failure(MalformedWireValue("choice"))
    else
      var obj := j.fields;
      var index :- PrimitiveInt(obj, "index");
      var finishReason :- Nullable(obj, "finish_reason", DecodeFinishReason);
      var message :- Nullable(obj, "message", DecodeMessage);
      Success(Choice(index, finishReason, message))
  }

  function DecodeUsage(j: JsonValue): (r: Result<Usage, DecodeError>)
    ensures r.Success? ==> j.JObject?
    ensures r.Success? ==> Lookup(j.fields, "completion_tokens") in {JNull, IntValue(r.value.completionTokens)}
    ensures r.Success? ==> Lookup(j.fields, "prompt_tokens") in {JNull, IntValue(r.value.promptTokens)}
    ensures r.Success? ==> Lookup(j.fields, "total_tokens") in {JNull, IntValue(r.value.totalTokens)}
    ensures r.Success? && Lookup(j.fields, "completion_tokens") == JNull ==> r.value.completionTokens == 0
    ensures r.Success? && Lookup(j.fields, "prompt_tokens") == JNull ==> r.value.promptTokens == 0
    ensures r.Success? && Lookup(j.fields, "total_tokens") == JNull ==> r.value.totalTokens == 0
  {
    if !j.JObject? then Failure(MalformedWireValue("usage"))
    else
      var obj := j.fields;
      var completion :- PrimitiveInt(obj, "completion_tokens");
      var prompt :- PrimitiveInt(obj, "prompt_tokens");
      var total :- PrimitiveInt(obj, "total_tokens");
      Success(Usage(completion, prompt, total))
  }

  function DecodeResponse(j: JsonValue): (r: Result<Response, DecodeError>)
    ensures !j.JObject? ==> r.Failure?
    ensures r.Success? ==> Lookup(j.fields, "id") == StringOrNull(r.value.id)
    ensures r.Success? ==> Lookup(j.fields, "model") == StringOrNull(r.value.model)
    ensures r.Success? ==> Lookup(j.fields, "system_fingerprint") == StringOrNull(r.value.systemFingerprint)
    ensures r.Success? ==> Lookup(j.fields, "object") == StringOrNull(r.value.objectTag)
    ensures r.Success? ==> Lookup(j.fields, "created") in {JNull, IntValue(r.value.created)}
    ensures r.Success? && Lookup(j.fields, "created") == JNull ==> r.value.created == 0
    ensures r.Success? ==> (r.value.choices.None? <==> Lookup(j.fields, "choices") == JNull)
    ensures r.Success? && r.value.choices.Some? ==>
      AsArray(Lookup(j.fields, "choices"), "choices", DecodeChoice) == Success(r.value.choices.value)
    ensures r.Success? ==> (r.value.usage.None? <==> Lookup(j.fields, "usage") == JNull)
    ensures r.Success? && r.value.usage.Some? ==> DecodeUsage(Lookup(j.fields, "usage")) == Success(r.value.usage.value)
  {
    if !j.JObject? then Failure(MalformedWireValue("chat.completion"))
    else
      var obj := j.fields;
      var id :- NullableString(obj, "id");
      var choices :- Nullable(obj, "choices", (v: JsonValue) => AsArray(v, "choices", DecodeChoice));
      var created :- PrimitiveInt(obj, "created");
      var model :- NullableString(obj, "model");
      var systemFingerprint :- NullableString(obj, "system_fingerprint");
      var objectTag :- NullableString(obj, "object");
      var usage :- Nullable(obj, "usage", DecodeUsage);
      Success(Response(id, choices, created, model, systemFingerprint, objectTag, usage))
  }

  function EncodeToolCall(t: ToolCall): JsonValue {
    JObject(map["id" := StringOrNull(t.id), "type" := StringOrNull(t.toolType), "function" := t.functionCall])
  }

  function EncodeMessage(m: Message): JsonValue {
    JObject(map["content" := StringOrNull(m.content),
                "tool_calls" := (if m.toolCalls.Some? then JArray(EncodeEach(m.toolCalls.value, EncodeToolCall)) else JNull),
                "role" := StringOrNull(m.role)])
  }

  function EncodeChoice(c: Choice): JsonValue {
    JObject(map["index" := IntValue(c.index),
                "finish_reason" := (if c.finishReason.Some? then EncodeFinishReason(c.finishReason.value) else JNull),
                "message" := (if c.message.Some? then EncodeMessage(c.message.value) else JNull)])
  }

  function EncodeUsage(u: Usage): JsonValue {
    JObject(map["completion_tokens" := IntValue(u.completionTokens), "prompt_tokens" := IntValue(u.promptTokens),
                "total_tokens" := IntValue(u.totalTokens)])
  }

  function EncodeResponse(r: Response): JsonValue {
    JObject(map["id" := StringOrNull(r.id),
                "choices" := (if r.choices.Some? then JArray(EncodeEach(r.choices.value, EncodeChoice)) else JNull),
                "created" := IntValue(r.created),
                "model" := StringOrNull(r.model),
                "system_fingerprint" := StringOrNull(r.systemFingerprint),
                "object" := StringOrNull(r.objectTag),
                "usage" := (if r.usage.Some? then EncodeUsage(r.usage.value) else JNull)])
  }

  lemma ToolCallRoundTrip(t: ToolCall)
    ensures DecodeToolCall(EncodeToolCall(t)) == Success(t)
  {
  }

  lemma MessageRoundTrip(m: Message)
    ensures DecodeMessage(EncodeMessage(m)) == Success(m)
  {
    if m.toolCalls.Some? {
      var xs := m.toolCalls.value;
      forall i | 0 <= i < |xs| ensures DecodeToolCall(EncodeToolCall(xs[i])) == Success(xs[i]) {
        ToolCallRoundTrip(xs[i]);
      }
      DecodeEncodeEach(xs, EncodeToolCall, DecodeToolCall);
    }
  }

  lemma ChoiceRoundTrip(c: Choice)
    ensures DecodeChoice(EncodeChoice(c)) == Success(c)
  {
    var obj := EncodeChoice(c).fields;
    if c.finishReason.Some? {
      FinishReasonRoundTrip(c.finishReason.value, c.finishReason.value);
    }
    NullableRoundTrip(obj, "finish_reason", c.finishReason, EncodeFinishReason, DecodeFinishReason);
    if c.message.Some? {
      MessageRoundTrip(c.message.value);
    }
    NullableRoundTrip(obj, "message", c.message, EncodeMessage, DecodeMessage);
    assert PrimitiveInt(obj, "index") == Success(c.index);
  }

  lemma UsageRoundTrip(u: Usage)
    ensures DecodeUsage(EncodeUsage(u)) == Success(u)
  {
  }

  lemma ResponseRoundTrip(r: Response)
    ensures DecodeResponse(EncodeResponse(r)) == Success(r)
  {
    var obj := EncodeResponse(r).fields;
    ResponseStringsRoundTrip(r);
    ResponseNestedRoundTrip(r);
    assert PrimitiveInt(obj, "created") == Success(r.created);
  }

  lemma ResponseStringsRoundTrip(r: Response)
    ensures var obj := EncodeResponse(r).fields;
      && NullableString(obj, "id") == Success(r.id)
      && NullableString(obj, "model") == Success(r.model)
      && NullableString(obj, "system_fingerprint") == Success(r.systemFingerprint)
      && NullableString(obj, "object") == Success(r.objectTag)
  {
    var obj := EncodeResponse(r).fields;
    StringRoundTrip(obj, "id", r.id);
    StringRoundTrip(obj, "model", r.model);
    StringRoundTrip(obj, "system_fingerprint", r.systemFingerprint);
    StringRoundTrip(obj, "object", r.objectTag);
  }

  lemma ResponseNestedRoundTrip(r: Response)
    ensures var obj := EncodeResponse(r).fields;
      && Nullable(obj, "choices", (v: JsonValue) => AsArray(v, "choices", DecodeChoice)) == Success(r.choices)
      && Nullable(obj, "usage", DecodeUsage) == Success(r.usage)
  {
    ChoicesRoundTrip(r);
    if r.usage.Some? {
      UsageRoundTrip(r.usage.value);
    }
    NullableRoundTrip(EncodeResponse(r).fields, "usage", r.usage, EncodeUsage, DecodeUsage);
  }

  lemma ChoicesRoundTrip(r: Response)
    ensures Nullable(EncodeResponse(r).fields, "choices", (v: JsonValue) => AsArray(v, "choices", DecodeChoice)) == Success(r.choices)
  {
    if r.choices.Some? {
      var xs := r.choices.value;
      forall i | 0 <= i < |xs| ensures DecodeChoice(EncodeChoice(xs[i])) == Success(xs[i]) {
        ChoiceRoundTrip(xs[i]);
      }
      DecodeEncodeEach(xs, EncodeChoice, DecodeChoice);
    }
  }

  /** Decoding accepts a tool call of any type: the documented "function"
      is a promise about the API, not a check in the client. */
  lemma ToolCallTypeNotEnforced(id: string, tag: string, call: JsonValue)
    ensures DecodeToolCall(JObject(map["id" := JString(id), "type" := JString(tag), "function" := call]))
         == Success(ToolCall(Some(id), Some(tag), call))
  {
  }

  // A key left out reads like an explicit null: every record decodes the
  // same from two objects that read alike under every key.

  lemma ToolCallAbsentIsNull(o1: Object, o2: Object)
    requires SameLookups(o1, o2)
    ensures DecodeToolCall(JObject(o1)) == DecodeToolCall(JObject(o2))
  {
    SameLookupComponents(o1, o2, "id");
    SameLookupComponents(o1, o2, "type");
    assert Lookup(o1, "function") == Lookup(o2, "function");
  }

  lemma MessageAbsentIsNull(o1: Object, o2: Object)
    requires SameLookups(o1, o2)
    ensures DecodeMessage(JObject(o1)) == DecodeMessage(JObject(o2))
  {
    SameLookupComponents(o1, o2, "content");
    SameLookupComponents(o1, o2, "role");
    SameLookupAttributes(o1, o2, "tool_calls", (v: JsonValue) => AsArray(v, "tool_calls", DecodeToolCall));
  }

  lemma ChoiceAbsentIsNull(o1: Object, o2: Object)
    requires SameLookups(o1, o2)
    ensures DecodeChoice(JObject(o1)) == DecodeChoice(JObject(o2))
  {
    SameLookupComponents(o1, o2, "index");
    SameLookupAttributes(o1, o2, "finish_reason", DecodeFinishReason);
    SameLookupAttributes(o1, o2, "message", DecodeMessage);
  }

  lemma UsageAbsentIsNull(o1: Object, o2: Object)
    requires SameLookups(o1, o2)
    ensures DecodeUsage(JObject(o1)) == DecodeUsage(JObject(o2))
  {
    SameLookupComponents(o1, o2, "completion_tokens");
    SameLookupComponents(o1, o2, "prompt_tokens");
    SameLookupComponents(o1, o2, "total_tokens");
  }

  lemma ResponseAbsentIsNull(o1: Object, o2: Object)
    requires SameLookups(o1, o2)
    ensures DecodeResponse(JObject(o1)) == DecodeResponse(JObject(o2))
  {
    SameLookupComponents(o1, o2, "id");
    SameLookupAttributes(o1, o2, "choices", (v: JsonValue) => AsArray(v, "choices", DecodeChoice));
    SameLookupComponents(o1, o2, "created");
    SameLookupComponents(o1, o2, "model");
    SameLookupComponents(o1, o2, "system_fingerprint");
    SameLookupComponents(o1, o2, "object");
    SameLookupAttributes(o1, o2, "usage", DecodeUsage);
  }

  // The documented invariants.

  predicate UsageConsistent(u: Usage) {
    TokensAddUp(u.promptTokens, u.completionTokens, u.totalTokens)
  }

  function ChoiceIndex(c: Choice): int {
    c.index
  }

  /** Every tool call of every choice's message is a function call. */
  predicate ToolCallsAreFunctions(cs: seq<Choice>) {
    forall i, k :: 0 <= i < |cs| && cs[i].message.Some? && cs[i].message.value.toolCalls.Some?
                   && 0 <= k < |cs[i].message.value.toolCalls.value|
                   ==> cs[i].message.value.toolCalls.value[k].toolType == Some("function")
  }

  predicate WellFormed(r: Response) {
    && r.objectTag == Some("chat.completion")
    && (r.choices.Some? ==> IndexedByPosition(r.choices.value, ChoiceIndex) && ToolCallsAreFunctions(r.choices.value))
    && (r.usage.Some? ==> UsageConsistent(r.usage.value))
  }

  /** Checks that every tool call in the list has type "function". */
  method CheckToolCalls(calls: seq<ToolCall>) returns (ok: bool)
    ensures ok <==> forall k :: 0 <= k < |calls| ==> calls[k].toolType == Some("function")
  {
    var k := 0;
    while k < |calls|
      invariant 0 <= k <= |calls|
      invariant forall m :: 0 <= m < k ==> calls[m].toolType == Some("function")
    {
      if calls[k].toolType != Some("function") {
        return false;
      }
      k := k + 1;
    }
    return true;
  }

  /** Decides the documented invariants of a decoded response. */
  method CheckWellFormed(r: Response) returns (ok: bool)
    ensures ok <==> WellFormed(r)
    ensures ok && r.choices.Some? ==> forall i :: 0 <= i < |r.choices.value| ==> r.choices.value[i].index == i
  {
    if r.objectTag != Some("chat.completion") || (r.usage.Some? && !UsageConsistent(r.usage.value)) {
      return false;
    }
    if r.choices.None? {
      return true;
    }
    var cs := r.choices.value;
    ok := CheckIndexedByPosition(cs, ChoiceIndex);
    if !ok {
      return false;
    }
    var i := 0;
    while i < |cs|
      invariant 0 <= i <= |cs|
      invariant forall j, k :: 0 <= j < i && cs[j].message.Some? && cs[j].message.value.toolCalls.Some?
                   && 0 <= k < |cs[j].message.value.toolCalls.value|
                   ==> cs[j].message.value.toolCalls.value[k].toolType == Some("function")
    {
      if cs[i].message.Some? && cs[i].message.value.toolCalls.Some? {
        var good := CheckToolCalls(cs[i].message.value.toolCalls.value);
        if !good {
          return false;
        }
      }
      i := i + 1;
    }
    return true;
  }
}

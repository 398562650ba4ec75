/** The chat-completions request: its tool-choice union, its response-format
    enum, the builder's required attributes and the NON_EMPTY encoding with
    snake_case wire keys. */
module ChatCompletionsCreateRequest {
  import opened Wrappers
  import opened Json

  /** The response formats; each serializes to a one-member object. */
  datatype ResponseFormat = Text | JsonObject {

    function ToValue(): JsonValue {
      match this
      case Text => JObject(map["type" := JString("text")])
      case JsonObject => JObject(map["type" := JString("json_object")])
    }
  }

  /** The response format a wire value names, if any. */
  function ParseResponseFormat(j: JsonValue): (r: Option<ResponseFormat>)
    ensures r.Some? ==> r.value.ToValue() == j
    ensures r.None? ==> forall f: ResponseFormat :: f.ToValue() != j
  {
    if j == JObject(map["type" := JString("text")]) then Some(Text)
    else if j == JObject(map["type" := JString("json_object")]) then Some(JsonObject)
    else None
  }

  /** Both formats round-trip through their wire objects. */
  lemma ResponseFormatRoundTrip(f: ResponseFormat)
    ensures ParseResponseFormat(f.ToValue()) == Some(f)
  {
    assert JsonObject.ToValue().fields["type"] != Text.ToValue().fields["type"];
  }

  /** The three ways a ToolChoice can be built: none(), auto() and
      function(name). */
  datatype ToolChoice = NoneChoice | AutoChoice | FunctionChoice(functionName: string)

  /** The wire value: a bare string for none and auto, a nested object
      naming the function otherwise. */
  function EncodeToolChoice(t: ToolChoice): (j: JsonValue)
    ensures j.JString? <==> !t.FunctionChoice?
    ensures j.JString? ==> j.s == (if t.NoneChoice? then "none" else "auto")
    ensures j.JObject? <==> t.FunctionChoice?
    ensures j.JObject? ==> j.fields.Keys == {"type", "function"} && j.fields["type"] == JString("function")
    ensures j.JObject? ==> j.fields["function"] == JObject(map["name" := JString(t.functionName)])
  {
    match t
    case NoneChoice => JString("none")
    case AutoChoice => JString("auto")
    case FunctionChoice(name) =>
      JObject(map["type" := JString("function"), "function" := JObject(map["name" := JString(name)])])
  }

  /** The tool choice a wire value encodes, if any: the inverse of
      EncodeToolChoice (the source only ever writes tool choices). */
  function DecodeToolChoice(j: JsonValue): (r: Option<ToolChoice>)
    ensures r.Some? ==> EncodeToolChoice(r.value) == j
  {
    match j
    case JString(s) =>
      if s == "none" then Some(NoneChoice) else if s == "auto" then Some(AutoChoice) else None
    case JObject(m) =>
      if m.Keys == {"type", "function"} && m["type"] == JString("function")
         && m["function"].JObject? && m["function"].fields.Keys == {"name"}
         && m["function"].fields["name"].JString?
      then
        var name := m["function"].fields["name"].s;
        assert m["function"].fields == map["name" := JString(name)];
        assert m == map["type" := JString("function"), "function" := JObject(map["name" := JString(name)])];
        Some(FunctionChoice(name))
      else None
    case _ => None
  }

  /** Every tool choice is recovered from its wire value; in particular the
      function name travels unchanged. */
  lemma ToolChoiceRoundTrip(t: ToolChoice)
    ensures DecodeToolChoice(EncodeToolChoice(t)) == Some(t)
  {
    match t
    case NoneChoice =>
    case AutoChoice =>
    case FunctionChoice(name) =>
      var m := EncodeToolChoice(t).fields;
      assert m.Keys == {"type", "function"};
      assert m["function"].fields.Keys == {"name"};
  }

  /** Distinct tool choices have distinct wire values: two function choices
      differ exactly when their names do, and no function choice is a string. */
  lemma ToolChoiceInjective(a: ToolChoice, b: ToolChoice)
    ensures EncodeToolChoice(a) == EncodeToolChoice(b) ==> a == b
    ensures a.FunctionChoice? <==> EncodeToolChoice(a).JObject?
  {
    ToolChoiceRoundTrip(a);
    ToolChoiceRoundTrip(b);
  }

  /** A built request. `messages` and `tools` hold already-serialized
      ChatCompletionMessage and ChatCompletionTool values. */
  datatype Request = Request(
    messages: seq<JsonValue>,
    model: string,
    frequencyPenalty: Option<Number>,
    logitBias: Option<map<string, Number>>,
    maxTokens: Option<Int32>,
    n: Option<Int32>,
    presencePenalty: Option<Number>,
    responseFormat: Option<ResponseFormat>,
    seed: Option<Int32>,
    stop: Option<seq<string>>,
    stream: Option<bool>,
    temperature: Option<Number>,
    topP: Option<Number>,
    tools: Option<seq<JsonValue>>,
    toolChoice: Option<ToolChoice>,
    user: Option<string>)

  /** The builder's state: `model` may still be unset, and `messages`
      starts out as the empty list. */
  datatype Builder = Builder(
    messages: seq<JsonValue>,
    model: Option<string>,
    frequencyPenalty: Option<Number>,
    logitBias: Option<map<string, Number>>,
    maxTokens: Option<Int32>,
    n: Option<Int32>,
    presencePenalty: Option<Number>,
    responseFormat: Option<ResponseFormat>,
    seed: Option<Int32>,
    stop: Option<seq<string>>,
    stream: Option<bool>,
    temperature: Option<Number>,
    topP: Option<Number>,
    tools: Option<seq<JsonValue>>,
    toolChoice: Option<ToolChoice>,
    user: Option<string>)

  const EmptyBuilder: Builder :=
    Builder([], None, None, None, None, None, None, None, None, None, None, None, None, None, None, None)

  /** build(): fails when the one mandatory attribute, `model`, was never
      set; every attribute set on the builder reaches the request as is. */
  function Build(b: Builder): (r: Result<Request, DecodeError>)
    ensures r.Failure? <==> b.model.None?
    ensures r.Failure? ==> r.error == MissingRequiredField("model")
    ensures r.Success? ==> r.value.model == b.model.value && r.value.messages == b.messages
    ensures r.Success? ==> r.value.toolChoice == b.toolChoice && r.value.responseFormat == b.responseFormat
    ensures r.Success? ==> r.value.stop == b.stop && r.value.tools == b.tools && r.value.user == b.user
    ensures r.Success? ==> r.value.logitBias == b.logitBias && r.value.maxTokens == b.maxTokens
    ensures r.Success? ==> r.value.frequencyPenalty == b.frequencyPenalty && r.value.presencePenalty == b.presencePenalty
    ensures r.Success? ==> r.value.n == b.n && r.value.seed == b.seed && r.value.stream == b.stream
    ensures r.Success? ==> r.value.temperature == b.temperature && r.value.topP == b.topP
  {
    match b.model
    case None => Failure(MissingRequiredField("model"))
    case Some(model) =>
      Success(Request(b.messages, model, b.frequencyPenalty, b.logitBias, b.maxTokens, b.n,
        b.presencePenalty, b.responseFormat, b.seed, b.stop, b.stream, b.temperature, b.topP,
        b.tools, b.toolChoice, b.user))
  }

  /** A builder that only had `model` set builds, with no messages. */
  lemma MessagesMayStayEmpty(model: string)
    ensures Build(EmptyBuilder.(model := Some(model))).Success?
    ensures Build(EmptyBuilder.(model := Some(model))).value.messages == []
    ensures Build(EmptyBuilder.(messages := [JNull])).Failure?
  {
  }

  /** The request's attributes, one per wire key. */
  datatype Field =
    | Messages | Model | FrequencyPenalty | LogitBias | MaxTokens | N | PresencePenalty
    | ResponseFormatField | Seed | Stop | Stream | Temperature | TopP | Tools | ToolChoiceField | User

  /** The wire key of each attribute: the renamed ones in snake_case, the
      rest under their own name. */
  function WireKey(f: Field): (k: string)
    ensures |k| > 0
    ensures forall i :: 0 <= i < |k| ==> 'a' <= k[i] <= 'z' || k[i] == '_'
  {
    match f
    case Messages => "messages"
    case Model => "model"
    case FrequencyPenalty => "frequency_penalty"
    case LogitBias => "logit_bias"
    case MaxTokens => "max_tokens"
    case N => "n"
    case PresencePenalty => "presence_penalty"
    case ResponseFormatField => "response_format"
    case Seed => "seed"
    case Stop => "stop"
    case Stream => "stream"
    case Temperature => "temperature"
    case TopP => "top_p"
    case Tools => "tools"
    case ToolChoiceField => "tool_choice"
    case User => "user"
  }

  /** The attribute a wire key belongs to, if any. */
  function FieldOfKey(key: string): (f: Option<Field>)
    ensures f.Some? ==> WireKey(f.value) == key
  {
    match key
    case "messages" => Some(Messages)
    case "model" => Some(Model)
    case "frequency_penalty" => Some(FrequencyPenalty)
    case "logit_bias" => Some(LogitBias)
    case "max_tokens" => Some(MaxTokens)
    case "n" => Some(N)
    case "presence_penalty" => Some(PresencePenalty)
    case "response_format" => Some(ResponseFormatField)
    case "seed" => Some(Seed)
    case "stop" => Some(Stop)
    case "stream" => Some(Stream)
    case "temperature" => Some(Temperature)
    case "top_p" => Some(TopP)
    case "tools" => Some(Tools)
    case "tool_choice" => Some(ToolChoiceField)
    case "user" => Some(User)
    case _ => None
  }

  /** No two attributes share a wire key. */
  lemma WireKeyInjective()
    ensures forall f: Field :: FieldOfKey(WireKey(f)) == Some(f)
    ensures forall f: Field, g: Field :: WireKey(f) == WireKey(g) ==> f == g
  {
    forall f: Field ensures FieldOfKey(WireKey(f)) == Some(f) {
      match f
      case Messages =>
      case Model =>
      case FrequencyPenalty =>
      case LogitBias =>
      case MaxTokens =>
      case N =>
      case PresencePenalty =>
      case ResponseFormatField =>
      case Seed =>
      case Stop =>
      case Stream =>
      case Temperature =>
      case TopP =>
      case Tools =>
      case ToolChoiceField =>
      case User =>
    }
  }

  /** The attributes in declaration order. */
  const FieldOrder: seq<Field> := [Messages, Model, FrequencyPenalty, LogitBias, MaxTokens, N,
    PresencePenalty, ResponseFormatField, Seed, Stop, Stream, Temperature, TopP, Tools, ToolChoiceField, User]

  /** FieldOrder lists every attribute. */
  lemma FieldOrderComplete()
    ensures forall f: Field :: f in FieldOrder
  {
    forall f: Field ensures f in FieldOrder {
      match f
      case Messages =>
      case Model =>
      case FrequencyPenalty =>
      case LogitBias =>
      case MaxTokens =>
      case N =>
      case PresencePenalty =>
      case ResponseFormatField =>
      case Seed =>
      case Stop =>
      case Stream =>
      case Temperature =>
      case TopP =>
      case Tools =>
      case ToolChoiceField =>
      case User =>
    }
  }

  function NumberMap(m: map<string, Number>): JsonValue {
    JObject(map k | k in m :: JNumber(m[k]))
  }

  function StringArray(xs: seq<string>): JsonValue {
    JArray(EncodeEach(xs, (x: string) => JString(x)))
  }

  /** What Jackson serializes for an attribute before NON_EMPTY filtering;
      a null attribute serializes as null. */
  function FieldJson(r: Request, f: Field): JsonValue {
    match f
    case Messages => JArray(r.messages)
    case Model => JString(r.model)
    case FrequencyPenalty => if r.frequencyPenalty.Some? then JNumber(r.frequencyPenalty.value) else JNull
    case LogitBias => if r.logitBias.Some? then NumberMap(r.logitBias.value) else JNull
    case MaxTokens => if r.maxTokens.Some? then IntValue(r.maxTokens.value) else JNull
    case N => if r.n.Some? then IntValue(r.n.value) else JNull
    case PresencePenalty => if r.presencePenalty.Some? then JNumber(r.presencePenalty.value) else JNull
    case ResponseFormatField => if r.responseFormat.Some? then r.responseFormat.value.ToValue() else JNull
    case Seed => if r.seed.Some? then IntValue(r.seed.value) else JNull
    case Stop => if r.stop.Some? then StringArray(r.stop.value) else JNull
    case Stream => if r.stream.Some? then JBool(r.stream.value) else JNull
    case Temperature => if r.temperature.Some? then JNumber(r.temperature.value) else JNull
    case TopP => if r.topP.Some? then JNumber(r.topP.value) else JNull
    case Tools => if r.tools.Some? then JArray(r.tools.value) else JNull
    case ToolChoiceField => if r.toolChoice.Some? then EncodeToolChoice(r.toolChoice.value) else JNull
    case User => if r.user.Some? then JString(r.user.value) else JNull
  }

  /** The wire keys of the given attributes. */
  function KeysOf(fields: seq<Field>): set<string> {
    set f | f in fields :: WireKey(f)
  }

  /** The members NON_EMPTY inclusion keeps for the given attributes: the
      wire key and value of each attribute whose value is not empty. */
  function Members(r: Request, fields: seq<Field>): (obj: Object)
    ensures forall f :: f in fields ==> (WireKey(f) in obj <==> !IsEmpty(FieldJson(r, f)))
    ensures forall f :: f in fields && WireKey(f) in obj ==> obj[WireKey(f)] == FieldJson(r, f)
    ensures obj.Keys <= KeysOf(fields)
    ensures forall k :: k in obj ==> !IsEmpty(obj[k])
  {
    WireKeyInjective();
    map f | f in fields && !IsEmpty(FieldJson(r, f)) :: WireKey(f) := FieldJson(r, f)
  }

  /** The request body. An attribute whose value is null or empty emits no
      key; every other attribute emits its wire key with its value; nothing
      else is emitted, and in particular never an explicit null. */
  function Encode(r: Request): (obj: Object)
    ensures forall f: Field :: WireKey(f) in obj <==> !IsEmpty(FieldJson(r, f))
    ensures forall f: Field :: WireKey(f) in obj ==> obj[WireKey(f)] == FieldJson(r, f)
    ensures obj.Keys <= KeysOf(FieldOrder)
    ensures forall k :: k in obj ==> obj[k] != JNull
  {
    FieldOrderComplete();
    Members(r, FieldOrder)
  }

  /** The numeric attributes emit their key exactly when set; the renamed
      ones under their snake_case keys. */
  lemma EncodedNumberKeys(r: Request)
    ensures "frequency_penalty" in Encode(r) <==> r.frequencyPenalty.Some?
    ensures "presence_penalty" in Encode(r) <==> r.presencePenalty.Some?
    ensures "temperature" in Encode(r) <==> r.temperature.Some?
    ensures "top_p" in Encode(r) <==> r.topP.Some?
  {
    assert r.frequencyPenalty.Some? <==> !IsEmpty(FieldJson(r, FrequencyPenalty));
    assert r.presencePenalty.Some? <==> !IsEmpty(FieldJson(r, PresencePenalty));
    assert r.temperature.Some? <==> !IsEmpty(FieldJson(r, Temperature));
    assert r.topP.Some? <==> !IsEmpty(FieldJson(r, TopP));
    PresentWhenNotEmpty(r, FrequencyPenalty, "frequency_penalty", r.frequencyPenalty.Some?);
    PresentWhenNotEmpty(r, PresencePenalty, "presence_penalty", r.presencePenalty.Some?);
    PresentWhenNotEmpty(r, Temperature, "temperature", r.temperature.Some?);
    PresentWhenNotEmpty(r, TopP, "top_p", r.topP.Some?);
  }

  /** One attribute's key and value in the body. */
  lemma FieldKey(r: Request, f: Field, key: string)
    requires WireKey(f) == key
    ensures key in Encode(r) <==> !IsEmpty(FieldJson(r, f))
    ensures key in Encode(r) ==> Encode(r)[key] == FieldJson(r, f)
  {
  }

  /** An attribute's key is present exactly when `present` says its value
      is not empty. */
  lemma PresentWhenNotEmpty(r: Request, f: Field, key: string, present: bool)
    requires WireKey(f) == key
    requires present <==> !IsEmpty(FieldJson(r, f))
    ensures key in Encode(r) <==> present
  {
    FieldKey(r, f, key);
  }

  /** The integer attributes emit their key exactly when set, zero
      included. */
  lemma EncodedIntegerKeys(r: Request)
    ensures "max_tokens" in Encode(r) <==> r.maxTokens.Some?
    ensures "n" in Encode(r) <==> r.n.Some?
    ensures "seed" in Encode(r) <==> r.seed.Some?
  {
    assert r.maxTokens.Some? <==> !IsEmpty(FieldJson(r, MaxTokens));
    assert r.n.Some? <==> !IsEmpty(FieldJson(r, N));
    assert r.seed.Some? <==> !IsEmpty(FieldJson(r, Seed));
    PresentWhenNotEmpty(r, MaxTokens, "max_tokens", r.maxTokens.Some?);
    PresentWhenNotEmpty(r, N, "n", r.n.Some?);
    PresentWhenNotEmpty(r, Seed, "seed", r.seed.Some?);
  }

  /** The stream flag emits its key exactly when set, false included. */
  lemma EncodedStreamKey(r: Request)
    ensures "stream" in Encode(r) <==> r.stream.Some?
    ensures r.stream.Some? ==> Encode(r)["stream"] == JBool(r.stream.value)
  {
    assert WireKey(Stream) == "stream";
  }

  /** The collection attributes emit their key only when they have elements. */
  lemma EncodedCollectionKeys(r: Request)
    ensures "messages" in Encode(r) <==> |r.messages| > 0
    ensures "logit_bias" in Encode(r) <==> r.logitBias.Some? && |r.logitBias.value| > 0
    ensures "stop" in Encode(r) <==> r.stop.Some? && |r.stop.value| > 0
    ensures "tools" in Encode(r) <==> r.tools.Some? && |r.tools.value| > 0
  {
    if r.logitBias.Some? {
      var m := r.logitBias.value;
      if |m| > 0 {
        var k :| k in m;
        assert k in (map k | k in m :: JNumber(m[k]));
      }
    }
    assert |r.messages| > 0 <==> !IsEmpty(FieldJson(r, Messages));
    assert r.logitBias.Some? && |r.logitBias.value| > 0 <==> !IsEmpty(FieldJson(r, LogitBias));
    assert r.stop.Some? && |r.stop.value| > 0 <==> !IsEmpty(FieldJson(r, Stop));
    assert r.tools.Some? && |r.tools.value| > 0 <==> !IsEmpty(FieldJson(r, Tools));
    PresentWhenNotEmpty(r, Messages, "messages", |r.messages| > 0);
    PresentWhenNotEmpty(r, LogitBias, "logit_bias", r.logitBias.Some? && |r.logitBias.value| > 0);
    PresentWhenNotEmpty(r, Stop, "stop", r.stop.Some? && |r.stop.value| > 0);
    PresentWhenNotEmpty(r, Tools, "tools", r.tools.Some? && |r.tools.value| > 0);
  }

  /** The string attributes emit their key only when not empty; the two
      object-valued attributes whenever they are set. */
  lemma EncodedStringAndObjectKeys(r: Request)
    ensures "model" in Encode(r) <==> r.model != ""
    ensures "user" in Encode(r) <==> r.user.Some? && r.user.value != ""
    ensures "response_format" in Encode(r) <==> r.responseFormat.Some?
    ensures "tool_choice" in Encode(r) <==> r.toolChoice.Some?
    ensures r.responseFormat.Some? ==> Encode(r)["response_format"] == r.responseFormat.value.ToValue()
    ensures r.toolChoice.Some? ==> Encode(r)["tool_choice"] == EncodeToolChoice(r.toolChoice.value)
  {
    assert WireKey(Model) == "model";
    assert WireKey(User) == "user";
    assert WireKey(ResponseFormatField) == "response_format";
    if r.responseFormat.Some? {
      assert "type" in r.responseFormat.value.ToValue().fields;
    }
    assert WireKey(ToolChoiceField) == "tool_choice";
    if r.toolChoice.Some? && r.toolChoice.value.FunctionChoice? {
      assert "type" in EncodeToolChoice(r.toolChoice.value).fields;
    }
  }

  /** A body never has more than the sixteen attribute keys. */
  lemma EncodedSize(r: Request)
    ensures |Encode(r)| <= 16
  {
    KeysOfSize(FieldOrder);
    SubsetCardinality(Encode(r).Keys, KeysOf(FieldOrder));
  }

  lemma {:induction false} KeysOfSize(fields: seq<Field>)
    ensures |KeysOf(fields)| <= |fields|
  {
    if fields != [] {
      KeysOfSize(fields[1..]);
      assert KeysOf(fields) == KeysOf(fields[1..]) + {WireKey(fields[0])};
    }
  }

  lemma SubsetCardinality<T>(a: set<T>, b: set<T>)
    requires a <= b
    ensures |a| <= |b|
  {
    assert b == a + (b - a);
  }

  /** Two requests whose attributes agree on emptiness, and on value where
      not empty, have the same body. */
  lemma SameBody(r1: Request, r2: Request)
    requires forall f: Field :: IsEmpty(FieldJson(r1, f)) == IsEmpty(FieldJson(r2, f))
    requires forall f: Field :: !IsEmpty(FieldJson(r1, f)) ==> FieldJson(r1, f) == FieldJson(r2, f)
    ensures Encode(r1) == Encode(r2)
  {
    var o1, o2 := Encode(r1), Encode(r2);
    forall k | k in o1 ensures k in o2 && o1[k] == o2[k] {
      var f :| f in FieldOrder && WireKey(f) == k;
    }
    forall k | k in o2 ensures k in o1 {
      var f :| f in FieldOrder && WireKey(f) == k;
    }
  }

  /** Null and empty are one and the same on the wire: setting a collection
      or string attribute to its empty value sends exactly what leaving it
      null sends, so no request can carry an explicit null or an empty list. */
  lemma NullAndEmptyIndistinguishable(r: Request)
    ensures Encode(r.(stop := None)) == Encode(r.(stop := Some([])))
    ensures Encode(r.(tools := None)) == Encode(r.(tools := Some([])))
    ensures Encode(r.(logitBias := None)) == Encode(r.(logitBias := Some(map[])))
    ensures Encode(r.(user := None)) == Encode(r.(user := Some("")))
  {
    StopNullOrEmpty(r);
    ToolsNullOrEmpty(r);
    LogitBiasNullOrEmpty(r);
    UserNullOrEmpty(r);
  }

  lemma ToolsNullOrEmpty(r: Request)
    ensures Encode(r.(tools := None)) == Encode(r.(tools := Some([])))
  {
    SameBody(r.(tools := None), r.(tools := Some([])));
  }

  lemma UserNullOrEmpty(r: Request)
    ensures Encode(r.(user := None)) == Encode(r.(user := Some("")))
  {
    SameBody(r.(user := None), r.(user := Some("")));
  }

  lemma StopNullOrEmpty(r: Request)
    ensures Encode(r.(stop := None)) == Encode(r.(stop := Some([])))
  {
    assert FieldJson(r.(stop := Some([])), Stop) == JArray([]);
    SameBody(r.(stop := None), r.(stop := Some([])));
  }

  lemma LogitBiasNullOrEmpty(r: Request)
    ensures Encode(r.(logitBias := None)) == Encode(r.(logitBias := Some(map[])))
  {
    assert FieldJson(r.(logitBias := Some(map[])), LogitBias) == JObject(map[]);
    SameBody(r.(logitBias := None), r.(logitBias := Some(map[])));
  }
}

# openai4j wire model in Dafny

This project models the data layer of openai4j, a Java client for the OpenAI
HTTP API. It covers the records the client builds and parses, and the JSON
each one turns into:

- the chat-completions request: the ToolChoice union, the ResponseFormat
  enum, the mandatory `model`, NON_EMPTY omission and snake_case keys;
- the two chat response records, with their finish-reason enum, renamed keys
  and documented invariants;
- the embedding record, whose vector is a union of a number array and a
  base64 string;
- the image-variation request: its three enums, the required image and the
  documented defaults and range;
- the thread message: the default role, the required content, the empty
  values left out, and the file and metadata limits;
- the generic list envelope;
- the type-id resolver Jackson uses for run-step tool calls.

JSON is modelled as a datatype (`Json.JsonValue`), with objects as maps from
keys to values. Numbers are kept as exact decimal literals, and `double`
values are never computed with. A Java `int` is `Json.Int32`. An absent key
reads like an explicit null (`Json.Lookup`). Decoding returns
`Result<T, DecodeError>`. The failure cases are:

- a mandatory attribute that is missing (`MissingRequiredField`);
- a value of the wrong shape (`MalformedWireValue`);
- an unknown enum string (`UnknownEnumValue`);
- an unknown variant tag (`UnknownVariantTag`);
- a union value of no accepted shape (`UnrecognizedUnionShape`).

The conventions follow Jackson and Immutables:

- A nullable reference attribute decodes an absent key or null to `None`
  (`Json.Nullable`).
- A record's primitive `int` or `double` component is 0 when its key is
  absent (`Json.PrimitiveInt`, `ChatCommon.PrimitiveDouble`).
- A mandatory Immutables attribute fails the decode when its key is absent
  (`Json.Required`).
- NON_EMPTY serialization drops null, `""`, `[]` and `{}` (`Json.IsEmpty`).

The resolver module, `ToolCallTypeResolver`, models the resolver's code as
written. `getMechanism` is the constant `ToolCallTypeResolver.Mechanism`
(logical names, `TypeIdsAreLogicalNames`). `idFromValue` is `IdFromValue`, which applies
`IdFromValueAndType` to the value's own class. The two name tables in the
resolver do not agree with each other (see Findings). `ToolCallRegistry` is
the corrected resolver: one canonical tag per subtype, used in both
directions. It also models the flat `{"type": tag, ...}` envelope built on
that tag.

## Model

| member | source | states |
|---|---|---|
| ToolCallTypeResolver.IdFromValueAndType | src/main/java/ch/rasc/openai4j/threads/runs/steps/ToolCallTypeResolver.java:27-42 | serialization yields an id exactly for the three recognised simple names, and the null id for every other class |
| ToolCallTypeResolver.TypeFromId | src/main/java/ch/rasc/openai4j/threads/runs/steps/ToolCallTypeResolver.java:44-59 | deserialization finds a subtype exactly for the three accepted tags, trailing spaces included, and none for any other string |
| ToolCallTypeResolver.EncodeThenDecode | src/main/java/ch/rasc/openai4j/threads/runs/steps/ToolCallTypeResolver.java:30-56 | following each written id into the reader: code_interpreter and "function " reach a subtype, while the written "retrieval" does not |
| ToolCallTypeResolver.DecodedValuesHaveNoId | src/main/java/ch/rasc/openai4j/threads/runs/steps/ToolCallTypeResolver.java:22-56 | every class the reader produces gets the null id from the writer |
| ToolCallTypeResolver.FunctionTagWithoutSpaceRejected | src/main/java/ch/rasc/openai4j/threads/runs/steps/ToolCallTypeResolver.java:51-56 | the tags "function" and "retrieval", without the trailing space, reach no subtype |
| ToolCallTypeResolver.TagMatchIsCaseSensitive | src/main/java/ch/rasc/openai4j/threads/runs/steps/ToolCallTypeResolver.java:30-56 | the string switches are exact: any string that differs from a recognised simple name or accepted tag only in ASCII letter case is not recognised, in either direction |
| ToolCallTypeResolver.AcceptedTagSubtypes | src/main/java/ch/rasc/openai4j/threads/runs/steps/ToolCallTypeResolver.java:47-57 | "code_interpreter", "retrieval " and "function " each resolve to their own class |
| ToolCallTypeResolver.IdFromValue | src/main/java/ch/rasc/openai4j/threads/runs/steps/ToolCallTypeResolver.java:22-25 | serializing a value the reader produced always yields the null id, since the value's class name is not one the writer's switch lists |
| ToolCallTypeResolver.TypeIdsAreLogicalNames | src/main/java/ch/rasc/openai4j/threads/runs/steps/ToolCallTypeResolver.java:27-42 | the ids written are logical names: no id the writer produces is one of the Java class names it recognises |
| ToolCallTypeResolver.TypeFromIdInjective | src/main/java/ch/rasc/openai4j/threads/runs/steps/ToolCallTypeResolver.java:47-57 | two accepted tags that lead to the same subtype are the same tag |
| ToolCallRegistry.Resolve | src/main/java/ch/rasc/openai4j/threads/runs/steps/ToolCallTypeResolver.java:44-59 | the corrected lookup: a tag resolves only to the subtype whose canonical tag it is, and a tag that resolves to nothing is no subtype's tag |
| ToolCallRegistry.ResolveDiscriminator | src/main/java/ch/rasc/openai4j/threads/runs/steps/ToolCallTypeResolver.java:27-59 | every subtype's canonical tag resolves back to that subtype |
| ToolCallRegistry.Decode | src/main/java/ch/rasc/openai4j/threads/runs/steps/ToolCallTypeResolver.java:44-59 | a missing tag is MissingRequiredField("type"), an unknown tag is UnknownVariantTag, and a success carries the tag's subtype and every other member as its payload |
| ToolCallRegistry.DecodeEncode | src/main/java/ch/rasc/openai4j/threads/runs/steps/ToolCallTypeResolver.java:22-59 | the corrected resolver round-trips every tool call through its envelope |
| ToolCallRegistry.EncodeDecode | src/main/java/ch/rasc/openai4j/threads/runs/steps/ToolCallTypeResolver.java:22-59 | every envelope that decodes is written back unchanged, so a decoded value always gets an id |
| ChatCompletionsCreateRequest.ParseResponseFormat | src/main/java/ch/rasc/openai4j/chatcompletions/ChatCompletionsCreateRequest.java:38-51 | a wire object names a response format exactly when it is that format's {"type": ...} object |
| ChatCompletionsCreateRequest.ResponseFormatRoundTrip | src/main/java/ch/rasc/openai4j/chatcompletions/ChatCompletionsCreateRequest.java:38-51 | text and json_object serialize to distinct objects that read back as themselves |
| ChatCompletionsCreateRequest.EncodeToolChoice | src/main/java/ch/rasc/openai4j/chatcompletions/ChatCompletionsCreateRequest.java:203-227 | none() and auto() are the bare strings "none" and "auto"; function(name) is exactly the object {"type": "function", "function": {"name": name}} |
| ChatCompletionsCreateRequest.DecodeToolChoice | src/main/java/ch/rasc/openai4j/chatcompletions/ChatCompletionsCreateRequest.java:193-228 | whatever the inverse reads from a wire value, that tool choice serializes to exactly that value |
| ChatCompletionsCreateRequest.ToolChoiceRoundTrip | src/main/java/ch/rasc/openai4j/chatcompletions/ChatCompletionsCreateRequest.java:203-222 | none, auto and function(name) are each recovered from their wire value, the function name unchanged |
| ChatCompletionsCreateRequest.ToolChoiceInjective | src/main/java/ch/rasc/openai4j/chatcompletions/ChatCompletionsCreateRequest.java:203-222 | distinct tool choices have distinct wire values, and only a function choice is an object |
| ChatCompletionsCreateRequest.Build | src/main/java/ch/rasc/openai4j/chatcompletions/ChatCompletionsCreateRequest.java:56-62 | build fails exactly when `model` was never set, with MissingRequiredField("model"); every attribute set on the builder reaches the request |
| ChatCompletionsCreateRequest.MessagesMayStayEmpty | src/main/java/ch/rasc/openai4j/chatcompletions/ChatCompletionsCreateRequest.java:56-62 | a builder with only `model` set builds with no messages; one with messages but no model fails |
| ChatCompletionsCreateRequest.WireKey | src/main/java/ch/rasc/openai4j/chatcompletions/ChatCompletionsCreateRequest.java:69-190 | every attribute is written under a non-empty snake_case key: lower-case letters and underscores only |
| ChatCompletionsCreateRequest.FieldOfKey | src/main/java/ch/rasc/openai4j/chatcompletions/ChatCompletionsCreateRequest.java:56-235 | a key that names an attribute is exactly that attribute's wire key |
| ChatCompletionsCreateRequest.WireKeyInjective | src/main/java/ch/rasc/openai4j/chatcompletions/ChatCompletionsCreateRequest.java:69-190 | every attribute's wire key names that attribute back, so distinct attributes are written under distinct keys |
| ChatCompletionsCreateRequest.FieldOrderComplete | src/main/java/ch/rasc/openai4j/chatcompletions/ChatCompletionsCreateRequest.java:56-235 | the attribute list covers every attribute of the request |
| ChatCompletionsCreateRequest.Encode | src/main/java/ch/rasc/openai4j/chatcompletions/ChatCompletionsCreateRequest.java:35-235 | NON_EMPTY: an attribute's key is present exactly when its value is non-empty, and holds that value; no other key and no null is ever written |
| ChatCompletionsCreateRequest.EncodedNumberKeys | src/main/java/ch/rasc/openai4j/chatcompletions/ChatCompletionsCreateRequest.java:69-169 | frequency_penalty, presence_penalty, temperature and top_p are written exactly when set |
| ChatCompletionsCreateRequest.EncodedIntegerKeys | src/main/java/ch/rasc/openai4j/chatcompletions/ChatCompletionsCreateRequest.java:92-136 | max_tokens, n and seed are written exactly when set, zero included |
| ChatCompletionsCreateRequest.EncodedStreamKey | src/main/java/ch/rasc/openai4j/chatcompletions/ChatCompletionsCreateRequest.java:149-150 | stream is written exactly when set, false included, with its value |
| ChatCompletionsCreateRequest.EncodedCollectionKeys | src/main/java/ch/rasc/openai4j/chatcompletions/ChatCompletionsCreateRequest.java:56-177 | messages, logit_bias, stop and tools are written only when they have elements |
| ChatCompletionsCreateRequest.EncodedStringAndObjectKeys | src/main/java/ch/rasc/openai4j/chatcompletions/ChatCompletionsCreateRequest.java:125-235 | model and user are written only when non-empty; response_format and tool_choice whenever set, as their wire objects |
| ChatCompletionsCreateRequest.EncodedSize | src/main/java/ch/rasc/openai4j/chatcompletions/ChatCompletionsCreateRequest.java:56-235 | a request body has at most sixteen keys |
| ChatCompletionsCreateRequest.SameBody | src/main/java/ch/rasc/openai4j/chatcompletions/ChatCompletionsCreateRequest.java:35 | requests that agree on which attributes are empty, and on the values of the others, have the same body |
| ChatCompletionsCreateRequest.NullAndEmptyIndistinguishable | src/main/java/ch/rasc/openai4j/chatcompletions/ChatCompletionsCreateRequest.java:35 | an empty stop, tools, logit_bias or user sends the same body as leaving it null |
| ChatCommon.ParseFinishReason | src/main/java/ch/rasc/openai4j/chatcompletions/ChatCompletionResponse.java:142-156 | a string names a finish reason exactly when it is that reason's wire value |
| ChatCommon.FinishReasonRoundTrip | src/main/java/ch/rasc/openai4j/chatcompletions/ChatCompletionResponse.java:142-156 | every finish reason reads back from its value, and distinct reasons have distinct values |
| ChatCommon.DecodeFinishReason | src/main/java/ch/rasc/openai4j/chatcompletions/ChatCompletionResponse.java:142-156 | a finish_reason succeeds exactly for the five strings; any other string is UnknownEnumValue |
| ChatCommon.CheckIndexedByPosition | src/main/java/ch/rasc/openai4j/chatcompletions/ChatCompletionResponse.java:101-111 | decides whether each choice's index is its position in the list |
| ChatCompletionResponse.DecodeResponse | src/main/java/ch/rasc/openai4j/chatcompletions/ChatCompletionResponse.java:28-31 | each component is read from its own key, service_tier and system_fingerprint included; a missing created is 0; choices decode element by element through DecodeChoice and usage through DecodeUsage |
| ChatCompletionResponse.DecodeChoice | src/main/java/ch/rasc/openai4j/chatcompletions/ChatCompletionResponse.java:101-157 | index is read from its key and is 0 when absent; finish_reason, message and logprobs are null exactly when their keys are, and otherwise decode through their own records |
| ChatCompletionResponse.DecodeMessage | src/main/java/ch/rasc/openai4j/chatcompletions/ChatCompletionResponse.java:159-192 | content, refusal and role are read from their keys; tool_calls is null exactly when its key is, and otherwise the array as sent |
| ChatCompletionResponse.DecodeLogprobs | src/main/java/ch/rasc/openai4j/chatcompletions/ChatCompletionResponse.java:194-202 | content is null exactly when its key is, and otherwise decodes element by element as logprob records |
| ChatCompletionResponse.DecodeTopLogprob | src/main/java/ch/rasc/openai4j/chatcompletions/ChatCompletionResponse.java:244-272 | token, logprob and bytes are read from their keys, logprob being 0 when absent and bytes null exactly when its key is |
| ChatCompletionResponse.DecodeDetails | src/main/java/ch/rasc/openai4j/chatcompletions/ChatCompletionResponse.java:312-321 | reasoning_tokens is read from its key and is 0 when absent |
| ChatCompletionResponse.DecodeLogprob | src/main/java/ch/rasc/openai4j/chatcompletions/ChatCompletionResponse.java:204-242 | token, logprob and bytes are read from their keys, logprob being 0 when absent; the alternatives come from the key "topLogprobs", the component's own name |
| ChatCompletionResponse.DecodeUsage | src/main/java/ch/rasc/openai4j/chatcompletions/ChatCompletionResponse.java:274-277 | the three counts come from completion_tokens, prompt_tokens and total_tokens, and each is 0 when its key is absent; completion_tokens_details is null exactly when its key is, and otherwise decodes through DecodeDetails |
| ChatCompletionResponse.TopLogprobRoundTrip | src/main/java/ch/rasc/openai4j/chatcompletions/ChatCompletionResponse.java:244-271 | a top log probability, null bytes included, survives the wire |
| ChatCompletionResponse.LogprobRoundTrip | src/main/java/ch/rasc/openai4j/chatcompletions/ChatCompletionResponse.java:204-241 | a log probability with its nested top list survives the wire, in order |
| ChatCompletionResponse.LogprobsRoundTrip | src/main/java/ch/rasc/openai4j/chatcompletions/ChatCompletionResponse.java:194-201 | the content list of log probabilities survives the wire, in order |
| ChatCompletionResponse.MessageRoundTrip | src/main/java/ch/rasc/openai4j/chatcompletions/ChatCompletionResponse.java:159-191 | content, refusal, tool_calls and role survive the wire |
| ChatCompletionResponse.ChoiceRoundTrip | src/main/java/ch/rasc/openai4j/chatcompletions/ChatCompletionResponse.java:101-139 | index, finish_reason, message and logprobs survive the wire |
| ChatCompletionResponse.UsageRoundTrip | src/main/java/ch/rasc/openai4j/chatcompletions/ChatCompletionResponse.java:274-320 | the usage counts and reasoning-token details survive the wire |
| ChatCompletionResponse.ResponseRoundTrip | src/main/java/ch/rasc/openai4j/chatcompletions/ChatCompletionResponse.java:28-99 | every response survives the wire, whether or not it meets its documented invariants |
| ChatCompletionResponse.LogprobBytesMayBeNull | src/main/java/ch/rasc/openai4j/chatcompletions/ChatCompletionResponse.java:221-231 | an entry with bytes absent or null decodes with no byte representation |
| ChatCompletionResponse.ResponseAbsentIsNull | src/main/java/ch/rasc/openai4j/chatcompletions/ChatCompletionResponse.java:28-71 | a response decodes the same whether an optional key, such as service_tier that is only sent when requested, is left out or set to null |
| ChatCompletionResponse.ChoiceAbsentIsNull | src/main/java/ch/rasc/openai4j/chatcompletions/ChatCompletionResponse.java:101-157 | a choice decodes the same whether a key is left out or set to null |
| ChatCompletionResponse.MessageAbsentIsNull | src/main/java/ch/rasc/openai4j/chatcompletions/ChatCompletionResponse.java:159-192 | a message decodes the same whether a key is left out or set to null |
| ChatCompletionResponse.LogprobsAbsentIsNull | src/main/java/ch/rasc/openai4j/chatcompletions/ChatCompletionResponse.java:194-202 | a logprobs record decodes the same whether content is left out or set to null |
| ChatCompletionResponse.LogprobAbsentIsNull | src/main/java/ch/rasc/openai4j/chatcompletions/ChatCompletionResponse.java:204-242 | a logprob decodes the same whether a key is left out or set to null |
| ChatCompletionResponse.TopLogprobAbsentIsNull | src/main/java/ch/rasc/openai4j/chatcompletions/ChatCompletionResponse.java:244-272 | a top logprob decodes the same whether a key is left out or set to null |
| ChatCompletionResponse.UsageAbsentIsNull | src/main/java/ch/rasc/openai4j/chatcompletions/ChatCompletionResponse.java:274-310 | usage decodes the same whether a key is left out or set to null |
| ChatCompletionResponse.DetailsAbsentIsNull | src/main/java/ch/rasc/openai4j/chatcompletions/ChatCompletionResponse.java:312-321 | the details record decodes the same whether reasoning_tokens is left out or set to null |
| ChatCompletionResponse.CheckWellFormed | src/main/java/ch/rasc/openai4j/chatcompletions/ChatCompletionResponse.java:86-111 | decides the documented invariants: object is chat.completion, choice indices match positions, and total = prompt + completion |
| ChatCompletionsResponse.DecodeToolCall | src/main/java/ch/rasc/openai4j/chatcompletions/ChatCompletionsResponse.java:167-192 | a tool call decodes exactly when id and type are strings or null; id and type are kept as sent, and function is the raw value under its key |
| ChatCompletionsResponse.DecodeChoice | src/main/java/ch/rasc/openai4j/chatcompletions/ChatCompletionsResponse.java:91-138 | finish_reason is absent exactly when its key is null or missing, and otherwise is the reason whose string was sent; index is 0 when absent; message decodes through DecodeMessage |
| ChatCompletionsResponse.DecodeMessage | src/main/java/ch/rasc/openai4j/chatcompletions/ChatCompletionsResponse.java:140-165 | content and role are read from their keys; tool_calls is null exactly when its key is, and otherwise decodes element by element as tool calls |
| ChatCompletionsResponse.DecodeUsage | src/main/java/ch/rasc/openai4j/chatcompletions/ChatCompletionsResponse.java:194-196 | the three counts come from their snake_case keys, and each is 0 when its key is absent |
| ChatCompletionsResponse.DecodeResponse | src/main/java/ch/rasc/openai4j/chatcompletions/ChatCompletionsResponse.java:28-30 | each component is read from its own key, system_fingerprint included; a missing created is 0; choices decode element by element through DecodeChoice, and usage is null exactly when its key is and otherwise decodes through DecodeUsage |
| ChatCompletionsResponse.ToolCallRoundTrip | src/main/java/ch/rasc/openai4j/chatcompletions/ChatCompletionsResponse.java:167-192 | a tool call survives the wire |
| ChatCompletionsResponse.MessageRoundTrip | src/main/java/ch/rasc/openai4j/chatcompletions/ChatCompletionsResponse.java:140-165 | a message and its tool calls survive the wire, in order |
| ChatCompletionsResponse.ChoiceRoundTrip | src/main/java/ch/rasc/openai4j/chatcompletions/ChatCompletionsResponse.java:91-138 | a choice survives the wire |
| ChatCompletionsResponse.ResponseRoundTrip | src/main/java/ch/rasc/openai4j/chatcompletions/ChatCompletionsResponse.java:28-89 | every response survives the wire |
| ChatCompletionsResponse.ToolCallTypeNotEnforced | src/main/java/ch/rasc/openai4j/chatcompletions/ChatCompletionsResponse.java:176-183 | a tool call of any type decodes: "only function" is documentation, not a check |
| ChatCompletionsResponse.ResponseAbsentIsNull | src/main/java/ch/rasc/openai4j/chatcompletions/ChatCompletionsResponse.java:28-89 | a response decodes the same whether a key is left out or set to null |
| ChatCompletionsResponse.ChoiceAbsentIsNull | src/main/java/ch/rasc/openai4j/chatcompletions/ChatCompletionsResponse.java:91-138 | a choice decodes the same whether a key is left out or set to null |
| ChatCompletionsResponse.MessageAbsentIsNull | src/main/java/ch/rasc/openai4j/chatcompletions/ChatCompletionsResponse.java:140-165 | a message decodes the same whether a key is left out or set to null |
| ChatCompletionsResponse.ToolCallAbsentIsNull | src/main/java/ch/rasc/openai4j/chatcompletions/ChatCompletionsResponse.java:167-192 | a tool call decodes the same whether a key is left out or set to null |
| ChatCompletionsResponse.UsageAbsentIsNull | src/main/java/ch/rasc/openai4j/chatcompletions/ChatCompletionsResponse.java:194-221 | usage decodes the same whether a count is left out or set to null |
| ChatCompletionsResponse.CheckToolCalls | src/main/java/ch/rasc/openai4j/chatcompletions/ChatCompletionsResponse.java:176-183 | decides whether every tool call has type "function" |
| ChatCompletionsResponse.CheckWellFormed | src/main/java/ch/rasc/openai4j/chatcompletions/ChatCompletionsResponse.java:76-183 | decides the documented invariants, including that every tool call is a function call |
| Embeddings.FromDoubleArray | src/main/java/ch/rasc/openai4j/embeddings/Embedding.java:49-53 | the array creator stores the array and leaves base64 null |
| Embeddings.FromBase64 | src/main/java/ch/rasc/openai4j/embeddings/Embedding.java:55-59 | the string creator stores the string and leaves the array null |
| Embeddings.ExactlyOneForm | src/main/java/ch/rasc/openai4j/embeddings/EmbeddingObject.java:30-60 | built from a non-null argument, the union holds exactly that one form, and the two creators never agree |
| Embeddings.DecodeVector | src/main/java/ch/rasc/openai4j/embeddings/Embedding.java:45-75 | a string takes the base64 form and an array of numbers the array form, in order; an array with a non-number element fails as a malformed "embedding", and any other shape is UnrecognizedUnionShape |
| Embeddings.VectorRoundTrip | src/main/java/ch/rasc/openai4j/embeddings/Embedding.java:45-75 | a vector holding one form reads back from its own wire shape |
| Embeddings.VectorShapePreserved | src/main/java/ch/rasc/openai4j/embeddings/EmbeddingObject.java:30-60 | decoding never converts between forms: re-encoding gives the wire value back |
| Embeddings.DecodeEmbedding | src/main/java/ch/rasc/openai4j/embeddings/Embedding.java:29-80 | index, embedding and object are all mandatory; a success holds exactly what those keys carried |
| Embeddings.EmbeddingRoundTrip | src/main/java/ch/rasc/openai4j/embeddings/Embedding.java:29-80 | every embedding whose vector holds one form survives the wire |
| Embeddings.ObjectTagNotEnforced | src/main/java/ch/rasc/openai4j/embeddings/EmbeddingObject.java:62-65 | an object tag other than "embedding" decodes just the same |
| ImageVariationRequest.ParseModel | src/main/java/ch/rasc/openai4j/image/ImageVariationRequest.java:15-28 | dall-e-2 is the only model string |
| ImageVariationRequest.ParseResponseFormat | src/main/java/ch/rasc/openai4j/image/ImageVariationRequest.java:30-43 | a string names a format exactly when it is url or b64_json |
| ImageVariationRequest.ParseSize | src/main/java/ch/rasc/openai4j/image/ImageVariationRequest.java:45-58 | a string names a size exactly when it is one of the three sizes |
| ImageVariationRequest.ModelRoundTrip | src/main/java/ch/rasc/openai4j/image/ImageVariationRequest.java:15-28 | the model reads back from its string |
| ImageVariationRequest.ResponseFormatRoundTrip | src/main/java/ch/rasc/openai4j/image/ImageVariationRequest.java:30-43 | each format reads back from its string |
| ImageVariationRequest.SizeRoundTrip | src/main/java/ch/rasc/openai4j/image/ImageVariationRequest.java:45-58 | each size reads back from its string |
| ImageVariationRequest.SizeInjective | src/main/java/ch/rasc/openai4j/image/ImageVariationRequest.java:45-58 | distinct sizes have distinct strings |
| ImageVariationRequest.ResponseFormatInjective | src/main/java/ch/rasc/openai4j/image/ImageVariationRequest.java:30-43 | distinct formats have distinct strings |
| ImageVariationRequest.Build | src/main/java/ch/rasc/openai4j/image/ImageVariationRequest.java:64-101 | build fails exactly when no image was set; the optional attributes pass through unchecked |
| ImageVariationRequest.BuildDoesNotCheckN | src/main/java/ch/rasc/openai4j/image/ImageVariationRequest.java:72-76 | the builder accepts any n, including values outside 1..10 |
| ImageVariationRequest.Resolve | src/main/java/ch/rasc/openai4j/image/ImageVariationRequest.java:66-88 | a set attribute is used as given; an unset one takes its documented default: dall-e-2, 1, url, 1024x1024 |
| ImageVariationRequest.DefaultsAreExplicitValues | src/main/java/ch/rasc/openai4j/image/ImageVariationRequest.java:66-88 | leaving an attribute unset requests the same thing as setting it to its default |
| ImageVariationRequest.ResolvedNInRange | src/main/java/ch/rasc/openai4j/image/ImageVariationRequest.java:72-76 | a request that respects the 1..10 range, or leaves n unset, asks for an image count in range |
| ThreadMessage.Build | src/main/java/ch/rasc/openai4j/threads/ThreadMessage.java:25-33 | build fails exactly when content is unset; an unset role becomes "user" |
| ThreadMessage.Encode | src/main/java/ch/rasc/openai4j/threads/ThreadMessage.java:19-50 | each key is present exactly when its value is non-empty, the file list goes under file_ids, and nothing empty or extra is written |
| ThreadMessage.Normalize | src/main/java/ch/rasc/openai4j/threads/ThreadMessage.java:19-50 | turning an empty list or map into null leaves a canonical message; role, content and every non-empty list or map are kept, and no empty list or map remains |
| ThreadMessage.NormalizeInvisible | src/main/java/ch/rasc/openai4j/threads/ThreadMessage.java:19-50 | null and empty file_ids or metadata send the same body |
| ThreadMessage.EncodeInjectiveOnCanonical | src/main/java/ch/rasc/openai4j/threads/ThreadMessage.java:19-50 | two canonical messages with the same body are equal |
| ThreadMessage.DefaultRoleIsSent | src/main/java/ch/rasc/openai4j/threads/ThreadMessage.java:25-33 | a message built without a role is sent with "role": "user" and its content |
| ThreadMessage.BuildDoesNotCheckLimits | src/main/java/ch/rasc/openai4j/threads/ThreadMessage.java:36-42 | the builder accepts more than ten file ids |
| ThreadMessage.CheckMetadata | src/main/java/ch/rasc/openai4j/threads/ThreadMessage.java:44-50 | decides at most 16 pairs, keys of at most 64 characters and string values of at most 512 |
| ThreadMessage.CheckMessage | src/main/java/ch/rasc/openai4j/threads/ThreadMessage.java:36-50 | decides the file and metadata limits of a message |
| Json.Required | src/main/java/ch/rasc/openai4j/common/ListResponse.java:33-38 | a mandatory attribute that is absent or null fails with MissingRequiredField; otherwise its decoder decides |
| Json.Nullable | src/main/java/ch/rasc/openai4j/common/ListResponse.java:40-46 | a nullable attribute that is absent or null is None; otherwise its decoder decides |
| Json.DecodeEach | src/main/java/ch/rasc/openai4j/common/ListResponse.java:35 | an array decodes exactly when every element does, to the elements' values in wire order; otherwise it fails with the error of the first element that fails |
| Json.DecodeEncodeEach | src/main/java/ch/rasc/openai4j/common/ListResponse.java:35 | an array round-trips whenever its elements do |
| Json.PrimitiveInt | src/main/java/ch/rasc/openai4j/chatcompletions/ChatCompletionResponse.java:28 | a record's int component is 0 when its key is absent or null |
| ListResponse.Decode | src/main/java/ch/rasc/openai4j/common/ListResponse.java:31-46 | object, data and has_more are mandatory; the data elements keep their wire order; first_id and last_id are the strings under their keys, absent exactly when their keys are |
| ListResponse.RoundTrip | src/main/java/ch/rasc/openai4j/common/ListResponse.java:31-46 | for any element type whose elements round-trip, a list survives the wire |
| ListResponse.HasMoreRequired | src/main/java/ch/rasc/openai4j/common/ListResponse.java:37-38 | a page without has_more fails with MissingRequiredField("has_more") |
| ListResponse.CursorIdsOptional | src/main/java/ch/rasc/openai4j/common/ListResponse.java:40-46 | an empty page holding only object, data and has_more decodes, with both ids absent |
| ListResponse.CursorIdsOptionalAll | src/main/java/ch/rasc/openai4j/common/ListResponse.java:40-46 | every page that decodes still decodes with first_id and last_id left out, to the same page with both ids absent |
| ListResponse.DecodeMapsElements | src/main/java/ch/rasc/openai4j/common/ListResponse.java:31-35 | decoding is uniform in the element type: mapping the element decoder maps the list |

## Left out

- The Feign clients (VectorStoresClient, ImagesClient, Moderations) and their
  HTTP calls, including the multipart forwarding of image requests and the
  file access through `Path.toFile()`. A path is kept as its text.
- ListRequest and paging across pages. Model.java and FineTuningJobEvent.java
  are not part of this model.
- Jackson's lenient coercions are not modelled: numbers read into strings,
  floats into ints, enums by ordinal, and numeric strings into numbers. The
  model accepts only the exact JSON shape of each attribute.
- Null elements inside arrays are not modelled, and neither is the mapper's
  handling of unknown keys. Decoders ignore keys they do not read.
- Floating point: a `double` is an opaque decimal literal. Rounding, NaN and
  the documented -2..2 ranges of the penalties are not modelled.
- Base64 decoding of embedding vectors is not modelled, and neither is
  streaming (server-sent events) of chat responses.
- `ChatCompletionResponse.Message.toolCalls` elements are the shared ToolCall
  record, which is not part of this model, so they are kept as raw JSON.
  The `function` member of `ChatCompletionsResponse.ToolCall` is raw JSON
  for the same reason.
- Immutables' builder methods (`addMessage`, `putLogitBias`, and so on) are
  not modelled. A builder is modelled as the state it accumulates.
- `ChatCompletionsCreateRequest.Build`: `messages` is not required, because
  an Immutables collection attribute starts out empty. Only `model` is
  mandatory, even though the API needs at least one message.
- `Embeddings.DecodeEmbedding` and `ListResponse.Decode` treat the primitive
  attributes `index` and `has_more` as mandatory, like the reference-typed
  ones.
- `ListResponse.Decode` treats `data` as mandatory, unlike the request's
  `messages`: ListResponse has no builder (`builder = false`), so it is
  built through its all-parameter constructor, and a null list fails that
  constructor's null check instead of starting out empty.
- `ThreadMessage.ValidMetadataValue` measures length in `char`s of the
  string. It requires every metadata value to be a string.
- `ImageVariationRequest.Resolve` and the response `WellFormed` predicates
  state what the API promises. The client enforces none of it, and the
  lemmas ending in `NotEnforced`, `DoesNotCheckN` and `DoesNotCheckLimits`
  say so.

## Findings

| source | as written | input that shows it | evidently intended | confidence | as-written member | corrected member |
|---|---|---|---|---|---|---|
| src/main/java/ch/rasc/openai4j/threads/runs/steps/ToolCallTypeResolver.java:34-53 | the writer emits "retrieval" but the reader accepts only "retrieval " (with a trailing space) | the tag "retrieval" written for a retrieval tool call finds no subtype when read back | one tag, "retrieval", in both directions | high; not executed | ToolCallTypeResolver.EncodeThenDecode | ToolCallRegistry.DecodeEncode |
| src/main/java/ch/rasc/openai4j/threads/runs/steps/ToolCallTypeResolver.java:37-56 | the function tag is "function " with a trailing space, in both directions | the tag "function", which the API sends, finds no subtype | the tag "function" | high; not executed | ToolCallTypeResolver.FunctionTagWithoutSpaceRejected | ToolCallRegistry.ResolveDiscriminator |
| src/main/java/ch/rasc/openai4j/threads/runs/steps/ToolCallTypeResolver.java:30-56 | the writer switches on CodeInterpreterToolCall, RetrievalToolCall and FunctionToolCall, while the reader produces ToolCallCodeInterpreter, ToolCallRetrieval and ToolCallFunction | serializing a decoded ToolCallFunction yields the null id | one table of subtypes shared by both directions | medium; not executed | ToolCallTypeResolver.DecodedValuesHaveNoId | ToolCallRegistry.EncodeDecode |

/** The type-id resolver Jackson consults for run-step tool calls, exactly
    as written: serialization switches on a class's simple name,
    deserialization switches on the wire tag, and the two tables do not
    agree with each other. */
module ToolCallTypeResolver {
  import opened Wrappers

  /** Jackson's type-id mechanisms. */
  datatype IdMechanism = NoId | ClassId | MinimalClassId | NameId | DeductionId | CustomId

  /** The resolver declares that ids are logical names. */
  const Mechanism: IdMechanism := NameId

  /** The classes that deserialization can produce. */
  datatype ToolCallSubtype = ToolCallCodeInterpreter | ToolCallRetrieval | ToolCallFunction {

    /** The Java simple name of the class. */
    function SimpleName(): string {
      match this
      case ToolCallCodeInterpreter => "ToolCallCodeInterpreter"
      case ToolCallRetrieval => "ToolCallRetrieval"
      case ToolCallFunction => "ToolCallFunction"
    }
  }

  /** The simple names serialization recognises. */
  const EncodedNames: set<string> := {"CodeInterpreterToolCall", "RetrievalToolCall", "FunctionToolCall"}

  /** The tags deserialization recognises. */
  const DecodedTags: set<string> := {"code_interpreter", "retrieval ", "function "}

  /** Serialization: the type id written for a class with the given simple
      name; None is the null id Jackson gets for any other class. */
  function IdFromValueAndType(simpleName: string): (id: Option<string>)
    ensures id.Some? <==> simpleName in EncodedNames
  {
    match simpleName
    case "CodeInterpreterToolCall" => Some("code_interpreter")
    case "RetrievalToolCall" => Some("retrieval")
    case "FunctionToolCall" => Some("function ")
    case _ => None
  }

  /** Serialization of a value: the id for the value's own runtime class.
      No class that deserialization produces is among the names this
      switch recognises, so every such value gets the null id. */
  function IdFromValue(value: ToolCallSubtype): (id: Option<string>)
    ensures id.None?
  {
    IdFromValueAndType(value.SimpleName())
  }

  /** The one tag deserialization accepts for each class, trailing space
      included where the switch has one. */
  function DecodedTag(t: ToolCallSubtype): string {
    match t
    case ToolCallCodeInterpreter => "code_interpreter"
    case ToolCallRetrieval => "retrieval "
    case ToolCallFunction => "function "
  }

  /** Deserialization: the class for a wire tag; None is the null subtype
      that makes Jackson's type construction fail. */
  function TypeFromId(id: string): (t: Option<ToolCallSubtype>)
    ensures t.Some? <==> id in DecodedTags
    ensures t.Some? ==> id == DecodedTag(t.value)
  {
    match id
    case "code_interpreter" => Some(ToolCallCodeInterpreter)
    case "retrieval " => Some(ToolCallRetrieval)
    case "function " => Some(ToolCallFunction)
    case _ => None
  }

  /** What each recognised class serializes to, and what that tag decodes
      back to: the code-interpreter and function tags reach a subtype, the
      retrieval tag does not, because decode wants a trailing space that
      encode does not write. */
  lemma EncodeThenDecode(simpleName: string)
    requires simpleName in EncodedNames
    ensures simpleName == "CodeInterpreterToolCall" ==>
      IdFromValueAndType(simpleName) == Some("code_interpreter") && TypeFromId("code_interpreter") == Some(ToolCallCodeInterpreter)
    ensures simpleName == "RetrievalToolCall" ==>
      IdFromValueAndType(simpleName) == Some("retrieval") && TypeFromId("retrieval") == None
    ensures simpleName == "FunctionToolCall" ==>
      IdFromValueAndType(simpleName) == Some("function ") && TypeFromId("function ") == Some(ToolCallFunction)
  {
  }

  /** The classes decode produces are not the classes encode recognises:
      serializing any decoded tool call yields the null id. */
  lemma DecodedValuesHaveNoId(value: ToolCallSubtype)
    ensures IdFromValue(value) == None
  {
  }

  /** The tag without the trailing space, which is what the API sends for a
      function tool call, reaches no subtype. */
  lemma FunctionTagWithoutSpaceRejected()
    ensures TypeFromId("function") == None
    ensures TypeFromId("retrieval") == None
  {
  }

  /** ASCII lower case, the folding a case-insensitive match would apply. */
  function FoldCase(s: string): (f: string)
    ensures |f| == |s|
  {
    seq(|s|, i requires 0 <= i < |s| => if 'A' <= s[i] <= 'Z' then (s[i] as int + 32) as char else s[i])
  }

  /** Both switches match exactly: a string that differs from a recognised
      name or tag only in letter case is not recognised, in either
      direction. */
  lemma TagMatchIsCaseSensitive(s: string, known: string)
    requires s != known && FoldCase(s) == FoldCase(known)
    ensures known in DecodedTags ==> TypeFromId(s) == None
    ensures known in EncodedNames ==> IdFromValueAndType(s) == None
  {
    assert |s| == |known|;
  }

  /** Each accepted tag names its own class. */
  lemma AcceptedTagSubtypes()
    ensures TypeFromId("code_interpreter") == Some(ToolCallCodeInterpreter)
    ensures TypeFromId("retrieval ") == Some(ToolCallRetrieval)
    ensures TypeFromId("function ") == Some(ToolCallFunction)
  {
  }

  /** Type ids are logical names (`Mechanism`): none of the names written is
      a Java class name the writer's switch recognises. */
  lemma TypeIdsAreLogicalNames(simpleName: string)
    ensures IdFromValueAndType(simpleName).Some? ==> IdFromValueAndType(simpleName).value !in EncodedNames
  {
  }

  /** Distinct accepted tags resolve to distinct subtypes. */
  lemma TypeFromIdInjective(a: string, b: string)
    requires TypeFromId(a).Some? && TypeFromId(a) == TypeFromId(b)
    ensures a == b
  {
  }
}

/** The tool-call registry with one canonical tag per subtype, shared by both
    directions, and the flat envelope {"type": tag, ...payload} built on it. */
module ToolCallRegistry {
  import opened Wrappers
  import opened Json
  import opened ToolCallTypeResolver

  /** The canonical wire tag of each subtype. */
  function Discriminator(t: ToolCallSubtype): string {
    match t
    case ToolCallCodeInterpreter => "code_interpreter"
    case ToolCallRetrieval => "retrieval"
    case ToolCallFunction => "function"
  }

  /** The subtype a tag names, if any; exact, case-sensitive, no default. */
  function Resolve(tag: string): (t: Option<ToolCallSubtype>)
    ensures t.Some? ==> Discriminator(t.value) == tag
    ensures t.None? ==> forall s: ToolCallSubtype :: Discriminator(s) != tag
  {
    match tag
    case "code_interpreter" => Some(ToolCallCodeInterpreter)
    case "retrieval" => Some(ToolCallRetrieval)
    case "function" => Some(ToolCallFunction)
    case _ => None
  }

  /** Every subtype's tag resolves back to that subtype. */
  lemma ResolveDiscriminator(t: ToolCallSubtype)
    ensures Resolve(Discriminator(t)) == Some(t)
  {
  }

  /** The payload keys of a tool call: everything except the tag. */
  type Payload = m: Object | "type" !in m witness map[]

  /** A run-step tool call: its subtype and the remaining members of its
      envelope, whose shapes belong to the subtype's own record. */
  datatype ToolCall = ToolCall(kind: ToolCallSubtype, payload: Payload)

  /** The flat envelope: the tag beside the payload members. */
  function Encode(c: ToolCall): (obj: Object)
    ensures "type" in obj && obj["type"] == JString(Discriminator(c.kind))
    ensures obj - {"type"} == c.payload
  {
    c.payload["type" := JString(Discriminator(c.kind))]
  }

  /** Reads the tag, resolves it and keeps the other members as payload. */
  function Decode(obj: Object): (r: Result<ToolCall, DecodeError>)
    ensures Lookup(obj, "type") == JNull ==> r == Failure(MissingRequiredField("type"))
    ensures Lookup(obj, "type").JString? && Resolve(obj["type"].s).None? ==>
      r == Failure(UnknownVariantTag(obj["type"].s))
    ensures r.Success? ==> "type" in obj && obj["type"] == JString(Discriminator(r.value.kind))
    ensures r.Success? ==> r.value.payload == obj - {"type"}
  {
    match Lookup(obj, "type")
    case JNull => Failure(MissingRequiredField("type"))
    case JString(tag) =>
      (match Resolve(tag)
       case None => Failure(UnknownVariantTag(tag))
       case Some(kind) => Success(ToolCall(kind, obj - {"type"})))
    case _ => Failure(MalformedWireValue("type"))
  }

  /** Decoding an encoded tool call gives it back. */
  lemma DecodeEncode(c: ToolCall)
    ensures Decode(Encode(c)) == Success(c)
  {
    ResolveDiscriminator(c.kind);
  }

  /** Encoding a decoded tool call gives back the wire object. */
  lemma EncodeDecode(obj: Object)
    requires Decode(obj).Success?
    ensures Encode(Decode(obj).value) == obj
  {
  }
}

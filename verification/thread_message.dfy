/** A message added to an assistant thread: its builder (role defaults to
    "user", content is required), its serialised form, in which empty values
    are left out, and the limits the API places on files and metadata. */
module ThreadMessage {
  import opened Wrappers
  import opened Json

  const DefaultRole := "user"
  const MaxFileIds := 10
  const MaxMetadataPairs := 16
  const MaxMetadataKeyLength := 64
  const MaxMetadataValueLength := 512

  datatype Message = Message(
    role: string,
    content: string,
    fileIds: Option<seq<string>>,
    metadata: Option<map<string, JsonValue>>)

  datatype Builder = Builder(
    role: Option<string>,
    content: Option<string>,
    fileIds: Option<seq<string>>,
    metadata: Option<map<string, JsonValue>>)

  const EmptyBuilder := Builder(None, None, None, None)

  /** Building fails exactly when no content was set; an unset role becomes
      "user", and the nullable lists are carried over, null included. */
  function Build(b: Builder): (r: Result<Message, DecodeError>)
    ensures r.Failure? <==> b.content.None?
    ensures r.Failure? ==> r.error == MissingRequiredField("content")
    ensures r.Success? ==> r.value.content == b.content.value
    ensures r.Success? ==> r.value.role == (if b.role.Some? then b.role.value else DefaultRole)
    ensures r.Success? ==> r.value.fileIds == b.fileIds && r.value.metadata == b.metadata
  {
    if b.content.None? then Failure(MissingRequiredField("content"))
    else Success(Message(b.role.GetOr(DefaultRole), b.content.value, b.fileIds, b.metadata))
  }

  function FileIdsJson(ids: Option<seq<string>>): JsonValue {
    if ids.None? then JNull else JArray(seq(|ids.value|, i requires 0 <= i < |ids.value| => JString(ids.value[i])))
  }

  function MetadataJson(md: Option<map<string, JsonValue>>): JsonValue {
    if md.None? then JNull else JObject(md.value)
  }

  const WireKeys: set<string> := {"role", "content", "file_ids", "metadata"}

  /** The serialised message: a key is present exactly when its value is
      neither null nor empty, and the file list goes under file_ids. */
  function Encode(m: Message): (obj: Object)
    ensures obj.Keys <= WireKeys
    ensures "role" in obj <==> m.role != ""
    ensures "content" in obj <==> m.content != ""
    ensures "file_ids" in obj <==> m.fileIds.Some? && |m.fileIds.value| > 0
    ensures "metadata" in obj <==> m.metadata.Some? && |m.metadata.value| > 0
    ensures "role" in obj ==> obj["role"] == JString(m.role)
    ensures "content" in obj ==> obj["content"] == JString(m.content)
    ensures "file_ids" in obj ==> obj["file_ids"].JArray? && |obj["file_ids"].items| == |m.fileIds.value|
    ensures "file_ids" in obj ==> forall i :: 0 <= i < |m.fileIds.value| ==> obj["file_ids"].items[i] == JString(m.fileIds.value[i])
    ensures "metadata" in obj ==> obj["metadata"] == JObject(m.metadata.value)
    ensures forall k :: k in obj ==> !IsEmpty(obj[k])
  {
    var entries := map[
      "role" := JString(m.role),
      "content" := JString(m.content),
      "file_ids" := FileIdsJson(m.fileIds),
      "metadata" := MetadataJson(m.metadata)];
    map k | k in entries && !IsEmpty(entries[k]) :: entries[k]
  }

  /** A message whose every attribute survives serialisation: no empty
      strings, and no list or map that is present but empty. */
  predicate Canonical(m: Message) {
    && m.role != ""
    && m.content != ""
    && (m.fileIds.Some? ==> |m.fileIds.value| > 0)
    && (m.metadata.Some? ==> |m.metadata.value| > 0)
  }

  /** Replaces the empty list and the empty map by null, which serialise
      alike. */
  function Normalize(m: Message): (n: Message)
    ensures n.role == m.role && n.content == m.content
    ensures m.role != "" && m.content != "" ==> Canonical(n)
    ensures Canonical(m) ==> n == m
    ensures m.fileIds != Some([]) ==> n.fileIds == m.fileIds
    ensures m.fileIds == Some([]) ==> n.fileIds == None
    ensures m.metadata != Some(map[]) ==> n.metadata == m.metadata
    ensures m.metadata == Some(map[]) ==> n.metadata == None
    ensures n.fileIds != Some([]) && n.metadata != Some(map[])
  {
    m.(fileIds := if m.fileIds == Some([]) then None else m.fileIds,
       metadata := if m.metadata == Some(map[]) then None else m.metadata)
  }

  /** Null and empty collections cannot be told apart on the wire. */
  lemma NormalizeInvisible(m: Message)
    ensures Encode(Normalize(m)) == Encode(m)
  {
  }

  /** Canonical messages are told apart by their serialised form. */
  lemma EncodeInjectiveOnCanonical(m1: Message, m2: Message)
    requires Canonical(m1) && Canonical(m2)
    requires Encode(m1) == Encode(m2)
    ensures m1 == m2
  {
    var o := Encode(m1);
    assert o["role"] == JString(m1.role) == JString(m2.role);
    assert o["content"] == JString(m1.content) == JString(m2.content);
    if m1.fileIds.Some? {
      var a, b := m1.fileIds.value, m2.fileIds.value;
      assert |a| == |b|;
      forall i | 0 <= i < |a| ensures a[i] == b[i] {
        assert o["file_ids"].items[i] == JString(a[i]) == JString(b[i]);
      }
      assert a == b;
    }
    if m1.metadata.Some? {
      assert o["metadata"] == JObject(m1.metadata.value) == JObject(m2.metadata.value);
    }
  }

  /** The default role is sent like any other: a message built without a
      role goes out with "role": "user". */
  lemma DefaultRoleIsSent(content: string)
    requires content != ""
    ensures Build(EmptyBuilder.(content := Some(content))).Success?
    ensures Encode(Build(EmptyBuilder.(content := Some(content))).value)
         == map["role" := JString("user"), "content" := JString(content)]
  {
    var o := Encode(Build(EmptyBuilder.(content := Some(content))).value);
    assert o.Keys == {"role", "content"};
  }

  // The limits the API documents; the builder enforces none of them.

  predicate ValidFileIds(ids: Option<seq<string>>) {
    ids.None? || |ids.value| <= MaxFileIds
  }

  /** A metadata value is a string of at most 512 characters. */
  predicate ValidMetadataValue(v: JsonValue) {
    v.JString? && |v.s| <= MaxMetadataValueLength
  }

  predicate ValidMetadataPair(md: map<string, JsonValue>, k: string)
    requires k in md
  {
    |k| <= MaxMetadataKeyLength && ValidMetadataValue(md[k])
  }

  predicate ValidMetadata(md: Option<map<string, JsonValue>>) {
    md.None? || (|md.value| <= MaxMetadataPairs && forall k :: k in md.value ==> ValidMetadataPair(md.value, k))
  }

  predicate Valid(m: Message) {
    ValidFileIds(m.fileIds) && ValidMetadata(m.metadata)
  }

  lemma BuildDoesNotCheckLimits(content: string, ids: seq<string>)
    ensures Build(EmptyBuilder.(content := Some(content), fileIds := Some(ids))).Success?
    ensures |ids| > MaxFileIds ==> !Valid(Build(EmptyBuilder.(content := Some(content), fileIds := Some(ids))).value)
  {
  }

  /** Checks every metadata pair, one key at a time. */
  method CheckMetadata(md: map<string, JsonValue>) returns (ok: bool)
    ensures ok <==> ValidMetadata(Some(md))
  {
    if |md| > MaxMetadataPairs {
      return false;
    }
    var pending := md.Keys;
    while pending != {}
      invariant pending <= md.Keys
      invariant forall k :: k in md && k !in pending ==> ValidMetadataPair(md, k)
      decreases |pending|
    {
      var k :| k in pending;
      if !ValidMetadataPair(md, k) {
        return false;
      }
      pending := pending - {k};
    }
    return true;
  }

  /** Checks the documented limits of a message. */
  method CheckMessage(m: Message) returns (ok: bool)
    ensures ok <==> Valid(m)
    ensures ok && m.fileIds.Some? ==> |m.fileIds.value| <= 10
    ensures ok && m.metadata.Some? ==> |m.metadata.value| <= 16
  {
    if m.fileIds.Some? && |m.fileIds.value| > MaxFileIds {
      return false;
    }
    if m.metadata.None? {
      return true;
    }
    ok := CheckMetadata(m.metadata.value);
  }
}

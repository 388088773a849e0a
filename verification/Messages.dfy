/** The EdgeCommons envelope as the bridge sees it, and the protobuf codec as a pair
    of functions about which only the round trip is assumed. */
module Messages {
  import opened Wrappers

  newtype Byte = x: int | 0 <= x < 0x100

  type Bytes = seq<Byte>

  datatype Json = JString(s: string) | JArray(items: seq<Json>) | JOther(text: string)

  datatype Body = Structured(json: Json) | Opaque(content: Bytes, contentType: string)

  /** A decoded envelope. `raw` marks a diagnostic value without a header;
      `tags` is absent when the envelope has no tags member. */
  datatype Message = Message(
    raw: bool,
    name: string,
    correlationId: string,
    replyTo: Option<string>,
    identity: string,
    tags: Option<map<string, Json>>,
    body: Body)

  const RELAY_TAG := "_relay"

  function TagsOf(m: Message): map<string, Json> {
    if m.tags.Some? then m.tags.value else map[]
  }

  /** The hop list as the engine reads it: the `_relay` array, or empty when the tag is
      absent or is not an array. */
  function Hops(m: Message): seq<Json> {
    var tags := TagsOf(m);
    if RELAY_TAG in tags && tags[RELAY_TAG].JArray? then tags[RELAY_TAG].items else []
  }

  /** The hop list is the array under the tag, whatever else the tags hold; an absent tags
      member, an absent tag and a tag that is no array all read as no hops. */
  lemma HopsRead(m: Message, tags: map<string, Json>, hops: seq<Json>)
    ensures Hops(m.(tags := Some(tags[RELAY_TAG := JArray(hops)]))) == hops
    ensures Hops(m.(tags := None)) == []
    ensures RELAY_TAG !in tags ==> Hops(m.(tags := Some(tags))) == []
    ensures RELAY_TAG in tags && !tags[RELAY_TAG].JArray? ==> Hops(m.(tags := Some(tags))) == []
  {
  }

  /** The message with its hop list replaced. */
  function WithHops(m: Message, hops: seq<Json>): (r: Message)
    ensures Hops(r) == hops
  {
    m.(tags := Some(TagsOf(m)[RELAY_TAG := JArray(hops)]))
  }

  datatype Codec = Codec(decode: Bytes -> Option<Message>, encode: Message -> Option<Bytes>)

  /** What the relay relies on: what is encoded decodes to itself, and bytes off the wire
      never decode to a diagnostic raw value. */
  ghost predicate WellBehaved(codec: Codec) {
    && (forall m: Message ::
          codec.encode(m).Some? ==> codec.decode(codec.encode(m).value) == Some(m))
    && (forall b: Bytes :: codec.decode(b).Some? ==> !codec.decode(b).value.raw)
  }
}

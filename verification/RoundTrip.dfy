/** One request crossing the bridge and its reply crossing back. */
module RoundTrip {
  import opened Wrappers
  import opened Messages
  import opened Relay
  import opened Reply

  /** What relaying may change of an envelope's content: only the hop list. */
  ghost predicate SameContent(a: Message, b: Message) {
    && a.name == b.name && a.correlationId == b.correlationId && a.identity == b.identity && a.body == b.body
    && TagsOf(a) - {RELAY_TAG} == TagsOf(b) - {RELAY_TAG}
  }

  lemma HopsLeaveContent(m: Message, hops: seq<Json>, replyTo: Option<string>)
    ensures SameContent(m, WithHops(m, hops).(replyTo := replyTo))
  {
    assert TagsOf(m)[RELAY_TAG := JArray(hops)] - {RELAY_TAG} == TagsOf(m) - {RELAY_TAG};
  }

  /** Down: the device sees the requester's command with one hop more and the minted topic
      to reply to, and the map resolves that topic, once, to the requester's own. */
  lemma RequestCrosses(e: RelayEngine, codec: Codec, topic: string, payload: Bytes, c: Corr, clock: int,
                       minted: string, now: int)
    requires WellBehaved(codec) && Ordered(c, clock) && clock <= now && minted !in Keys(c)
    requires Decide(e, codec, Downlink, topic, payload).Forward?
    requires codec.decode(payload).value.replyTo.Some?
    requires Rewrite(c, codec, Decide(e, codec, Downlink, topic, payload).bytes, minted, now).1.Rewritten?
    ensures var m := codec.decode(payload).value;
            var (d, r) := Rewrite(c, codec, Decide(e, codec, Downlink, topic, payload).bytes, minted, now);
            var seen := codec.decode(r.bytes);
            && seen.Some? && SameContent(m, seen.value)
            && Hops(seen.value) == Hops(m) + [JString(e.hopId)]
            && seen.value.replyTo == Some(minted)
            && Take(d, minted).1 == m.replyTo
            && Take(Take(d, minted).0, minted).1 == None
  {
    ForwardAppendsOneHop(e, codec, Downlink, topic, payload);
    var m := codec.decode(payload).value;
    var relayed := WithHops(m, Hops(m) + [JString(e.hopId)]);
    HopsLeaveContent(m, Hops(m) + [JString(e.hopId)], Some(minted));
    var d := Rewrite(c, codec, Decide(e, codec, Downlink, topic, payload).bytes, minted, now).0;
    RecordKeepsOrder(c, clock, minted, m.replyTo.value, m.correlationId, now);
    assert d == Record(c, minted, relayed.replyTo.value, relayed.correlationId, now).0;
    assert minted in Abstract(d.pending) && Abstract(d.pending)[minted].siteReplyTo == m.replyTo.value;
    TakeRefines(d, now, minted);
  }

  /** Why a reply is refused: it does not decode, has crossed this bridge, has no hops left,
      or does not re-encode, in that order. */
  lemma ReplyRefusedExactly(e: RelayEngine, codec: Codec, payload: Bytes)
    requires WellBehaved(codec) && PrepareReply(e, codec, payload).Refused?
    ensures var reason := PrepareReply(e, codec, payload).reason;
            if codec.decode(payload).None? then reason == MalformedEnvelope
            else
              var r := codec.decode(payload).value;
              && (reason == OwnEcho <==> JString(e.hopId) in Hops(r))
              && (reason == MaxHopsExceeded <==> JString(e.hopId) !in Hops(r) && |Hops(r)| >= e.maxHops)
              && (reason == MalformedEnvelope <==> JString(e.hopId) !in Hops(r) && |Hops(r)| < e.maxHops)
  {
    if codec.decode(payload).Some? {
      var r := codec.decode(payload).value;
      assert Hops(r.(replyTo := None)) == Hops(r);
    }
  }

  /** Up: a reply is relayed exactly when it decodes, has not already crossed this bridge,
      has hops left and re-encodes; then the requester gets the responder's content, with
      one hop more and no reply topic. */
  lemma ReplyCrosses(e: RelayEngine, codec: Codec, payload: Bytes)
    requires WellBehaved(codec)
    ensures PrepareReply(e, codec, payload).Relayed? <==>
            && codec.decode(payload).Some?
            && var r := codec.decode(payload).value;
            && JString(e.hopId) !in Hops(r)
            && |Hops(r)| < e.maxHops
            && codec.encode(WithHops(r, Hops(r) + [JString(e.hopId)]).(replyTo := None)).Some?
    ensures PrepareReply(e, codec, payload).Relayed? ==>
            var r := codec.decode(payload).value;
            var got := codec.decode(PrepareReply(e, codec, payload).bytes);
            && got.Some? && SameContent(r, got.value)
            && Hops(got.value) == Hops(r) + [JString(e.hopId)]
            && got.value.replyTo == None
  {
    if codec.decode(payload).Some? {
      var r := codec.decode(payload).value;
      assert Hops(r.(replyTo := None)) == Hops(r);
      assert WithHops(r.(replyTo := None), Hops(r) + [JString(e.hopId)]) ==
             WithHops(r, Hops(r) + [JString(e.hopId)]).(replyTo := None);
      HopsLeaveContent(r, Hops(r) + [JString(e.hopId)], None);
    }
  }
}

/** Any number of bridges joined by any buses, cyclic or not: one published message is
    relayed finitely often, along paths of distinct bridges, and arrives unchanged but
    for the hops it gathered. */
module Network {
  import opened Wrappers
  import opened Topics
  import opened Messages
  import opened Relay

  datatype Bridge = Bridge(engine: RelayEngine, deviceBus: nat, siteBus: nat)

  /** One broker subscription held by a bridge, served by a pump in one direction. */
  datatype Sub = Sub(bridge: nat, direction: Direction, filter: string)

  datatype Network = Network(bridges: seq<Bridge>, subs: seq<Sub>, codec: Codec)

  ghost predicate WellFormed(net: Network) {
    && WellBehaved(net.codec)
    && (forall i :: 0 <= i < |net.subs| ==> net.subs[i].bridge < |net.bridges|)
  }

  function From(b: Bridge, direction: Direction): nat {
    if direction == Uplink then b.deviceBus else b.siteBus
  }

  function To(b: Bridge, direction: Direction): nat {
    if direction == Uplink then b.siteBus else b.deviceBus
  }

  /** A publication waiting in the queue of one subscription, with the bridges and
      directions it has already crossed. */
  datatype Delivery = Delivery(sub: nat, topic: string, payload: Bytes, path: seq<nat>, dirs: seq<Direction>)

  /** The subscriptions a publication reaches: the environment picks any of those that are
      on the bus and match, each at most once. */
  ghost predicate Reaches(net: Network, bus: nat, topic: string, out: seq<nat>) {
    && (forall k :: 0 <= k < |out| ==>
          && out[k] < |net.subs|
          && net.subs[out[k]].bridge < |net.bridges|
          && From(net.bridges[net.subs[out[k]].bridge], net.subs[out[k]].direction) == bus
          && TopicMatches(net.subs[out[k]].filter, topic))
    && (forall j, k :: 0 <= j < k < |out| ==> out[j] < out[k])
  }

  function Deliveries(out: seq<nat>, topic: string, payload: Bytes, path: seq<nat>,
                      dirs: seq<Direction>): (r: seq<Delivery>)
    ensures |r| == |out|
    ensures forall k :: 0 <= k < |r| ==> r[k] == Delivery(out[k], topic, payload, path, dirs)
  {
    seq(|out|, k requires 0 <= k < |out| => Delivery(out[k], topic, payload, path, dirs))
  }

  /** Handle the pending delivery at `at`. On a forward the bridge may lose the message
      (policy, broker); if it republishes, `out` are the subscriptions reached. A relayed
      command may first have its `reply_to` rewritten. */
  datatype Step = Handle(at: nat, rewrite: Option<string>, out: seq<nat>)

  /** The bytes republished for a delivery, if any are. */
  function Republished(net: Network, d: Delivery, rewrite: Option<string>): Option<Bytes>
    requires d.sub < |net.subs| && net.subs[d.sub].bridge < |net.bridges|
  {
    var sub := net.subs[d.sub];
    match Decide(net.bridges[sub.bridge].engine, net.codec, sub.direction, d.topic, d.payload)
    case Drop(_) => None
    case Forward(bytes) =>
      if sub.direction == Uplink || rewrite.None? || net.codec.decode(bytes).None? then Some(bytes)
      else net.codec.encode(net.codec.decode(bytes).value.(replyTo := rewrite))
  }

  ghost predicate Enabled(net: Network, pending: seq<Delivery>, s: Step) {
    && s.at < |pending|
    && var d := pending[s.at];
    && d.sub < |net.subs|
    && net.subs[d.sub].bridge < |net.bridges|
    && var sub := net.subs[d.sub];
    && if Republished(net, d, s.rewrite).None? then s.out == []
       else Reaches(net, To(net.bridges[sub.bridge], sub.direction), d.topic, s.out)
  }

  ghost function Next(net: Network, pending: seq<Delivery>, s: Step): seq<Delivery>
    requires Enabled(net, pending, s)
  {
    var d := pending[s.at];
    var sub := net.subs[d.sub];
    var sent := Republished(net, d, s.rewrite);
    var rest := pending[..s.at] + pending[s.at + 1..];
    if sent.None? then rest
    else rest + Deliveries(s.out, d.topic, sent.value, d.path + [sub.bridge], d.dirs + [sub.direction])
  }

  /** The pending deliveries after a run, or None when a step of it was not possible. */
  ghost function Run(net: Network, initial: seq<Delivery>, steps: seq<Step>): Option<seq<Delivery>> {
    if steps == [] then Some(initial)
    else
      var before := Run(net, initial, steps[..|steps| - 1]);
      var s := steps[|steps| - 1];
      if before.Some? && Enabled(net, before.value, s) then Some(Next(net, before.value, s)) else None
  }

  /** One message published once, on one bus. */
  ghost function Published(net: Network, bus: nat, topic: string, payload: Bytes, out: seq<nat>): seq<Delivery>
    requires Reaches(net, bus, topic, out)
  {
    Deliveries(out, topic, payload, [], [])
  }

  // ---- what one step does ----

  /** A delivery is republished exactly when its bridge forwards it and, on the way down with
      a reply topic to replace, the rewritten command encodes; and these are the bytes. */
  lemma RepublishedExactly(net: Network, d: Delivery, rewrite: Option<string>)
    requires WellFormed(net) && d.sub < |net.subs|
    ensures var sub, sent := net.subs[d.sub], Republished(net, d, rewrite);
            var decision := Decide(net.bridges[sub.bridge].engine, net.codec, sub.direction, d.topic, d.payload);
            if decision.Drop? then sent == None
            else if sub.direction == Uplink || rewrite == None then sent == Some(decision.bytes)
            else
              && net.codec.decode(decision.bytes).Some?
              && sent == net.codec.encode(net.codec.decode(decision.bytes).value.(replyTo := rewrite))
  {
    var sub := net.subs[d.sub];
    if Decide(net.bridges[sub.bridge].engine, net.codec, sub.direction, d.topic, d.payload).Forward? {
      ForwardAppendsOneHop(net.bridges[sub.bridge].engine, net.codec, sub.direction, d.topic, d.payload);
    }
  }

  /** Handling a delivery takes it, and it alone, off what is pending, and queues what is
      republished once for each subscription reached, with the bridge and the direction
      added to its path. */
  lemma NextExactly(net: Network, pending: seq<Delivery>, s: Step)
    requires Enabled(net, pending, s)
    ensures var d, after := pending[s.at], Next(net, pending, s);
            var sub, sent := net.subs[d.sub], Republished(net, d, s.rewrite);
            && |after| == |pending| - 1 + |s.out|
            && (forall i :: 0 <= i < |pending| - 1 ==> after[i] == pending[if i < s.at then i else i + 1])
            && (sent == None ==> s.out == [])
            && (forall k :: 0 <= k < |s.out| ==>
                  after[|pending| - 1 + k] ==
                  Delivery(s.out[k], d.topic, sent.value, d.path + [sub.bridge], d.dirs + [sub.direction]))
  {
  }

  /** Deliveries may be handled in any order. */
  lemma AnyCanBeHandled(net: Network, pending: seq<Delivery>, at: nat, rewrite: Option<string>)
    requires WellFormed(net) && at < |pending| && pending[at].sub < |net.subs|
    ensures Enabled(net, pending, Handle(at, rewrite, []))
  {
  }

  // ---- termination ----

  function MaxHops(bridges: seq<Bridge>): (m: nat)
    ensures forall i :: 0 <= i < |bridges| ==> bridges[i].engine.maxHops <= m
  {
    if bridges == [] then 0
    else
      var rest := MaxHops(bridges[1..]);
      if bridges[0].engine.maxHops > rest then bridges[0].engine.maxHops else rest
  }

  function Power(b: nat, e: nat): (p: nat)
    requires b >= 1
    ensures p >= 1
  {
    if e == 0 then 1 else b * Power(b, e - 1)
  }

  /** Hops still available to a payload under the largest `maxHops`. */
  function HopsLeft(net: Network, payload: Bytes): nat {
    var m := net.codec.decode(payload);
    var most := MaxHops(net.bridges);
    if m.None? || |Hops(m.value)| >= most then 0 else most - |Hops(m.value)|
  }

  function Weight(net: Network, payload: Bytes): nat {
    Power(|net.subs| + 1, HopsLeft(net, payload))
  }

  function Rank(net: Network, pending: seq<Delivery>): nat {
    if pending == [] then 0
    else Weight(net, pending[0].payload) + Rank(net, pending[1..])
  }

  lemma {:induction false} RankConcat(net: Network, a: seq<Delivery>, b: seq<Delivery>)
    ensures Rank(net, a + b) == Rank(net, a) + Rank(net, b)
  {
    if a == [] {
      assert a + b == b;
    } else {
      RankConcat(net, a[1..], b);
      assert (a + b)[1..] == a[1..] + b;
    }
  }

  lemma {:induction false} RankUniform(net: Network, ds: seq<Delivery>, payload: Bytes)
    requires forall k :: 0 <= k < |ds| ==> ds[k].payload == payload
    ensures Rank(net, ds) == |ds| * Weight(net, payload)
  {
    if ds != [] {
      RankUniform(net, ds[1..], payload);
    }
  }

  lemma {:induction false} IncreasingIsShort(out: seq<nat>, bound: nat)
    requires forall k :: 0 <= k < |out| ==> out[k] < bound
    requires forall j, k :: 0 <= j < k < |out| ==> out[j] < out[k]
    ensures |out| <= bound
  {
    if out != [] {
      var last := |out| - 1;
      IncreasingIsShort(out[..last], out[last]);
    }
  }

  lemma {:induction false} ProductLess(n: nat, bound: nat, w: nat)
    requires n <= bound && w >= 1
    ensures n * w < (bound + 1) * w
  {
  }

  lemma {:induction false} ProductMonotone(n: nat, bound: nat, w: nat)
    requires n <= bound
    ensures n * w <= bound * w
  {
  }

  /** What is republished carries exactly one hop more, this bridge's own, and is otherwise
      the message received (up to a downlink `reply_to` rewrite). */
  lemma {:induction false} RepublishedMessage(net: Network, d: Delivery, rewrite: Option<string>)
    requires WellFormed(net) && d.sub < |net.subs|
    requires Republished(net, d, rewrite).Some?
    ensures net.codec.decode(d.payload).Some?
    ensures var sub := net.subs[d.sub];
            var e := net.bridges[sub.bridge].engine;
            var m := net.codec.decode(d.payload).value;
            var out := net.codec.decode(Republished(net, d, rewrite).value);
            && Routed(e, sub.direction, d.topic) == None
            && JString(e.hopId) !in Hops(m)
            && |Hops(m)| < e.maxHops
            && out.Some?
            && out.value == WithHops(m, Hops(m) + [JString(e.hopId)]).(replyTo := out.value.replyTo)
            && (sub.direction == Uplink || rewrite.None? ==> out.value.replyTo == m.replyTo)
            && Hops(out.value) == Hops(m) + [JString(e.hopId)]
  {
    var sub := net.subs[d.sub];
    ForwardAppendsOneHop(net.bridges[sub.bridge].engine, net.codec, sub.direction, d.topic, d.payload);
  }

  /** What one delivery spawns weighs less than the delivery did. */
  lemma {:induction false} SpawnedWeighsLess(net: Network, d: Delivery, rewrite: Option<string>, spawned: seq<Delivery>)
    requires WellFormed(net) && d.sub < |net.subs|
    requires Republished(net, d, rewrite).Some?
    requires |spawned| <= |net.subs|
    requires forall k :: 0 <= k < |spawned| ==> spawned[k].payload == Republished(net, d, rewrite).value
    ensures Rank(net, spawned) < Weight(net, d.payload)
  {
    var sent := Republished(net, d, rewrite).value;
    var left := HopsLeft(net, sent);
    assert HopsLeft(net, d.payload) == left + 1 by {
      RepublishedMessage(net, d, rewrite);
      assert net.bridges[net.subs[d.sub].bridge].engine.maxHops <= MaxHops(net.bridges);
    }
    assert Weight(net, d.payload) == (|net.subs| + 1) * Power(|net.subs| + 1, left);
    RankUniform(net, spawned, sent);
    ProductLess(|spawned|, |net.subs|, Power(|net.subs| + 1, left));
  }

  lemma {:induction false} RankRemove(net: Network, pending: seq<Delivery>, at: nat)
    requires at < |pending|
    ensures Rank(net, pending) == Rank(net, pending[..at] + pending[at + 1..]) + Weight(net, pending[at].payload)
  {
    var before, d, after := pending[..at], pending[at], pending[at + 1..];
    assert pending == before + ([d] + after);
    assert ([d] + after)[1..] == after;
    RankConcat(net, before, [d] + after);
    RankConcat(net, before, after);
  }

  /** Handling one delivery strictly lowers the rank, whatever it spawns. */
  lemma {:induction false} StepLowersRank(net: Network, pending: seq<Delivery>, s: Step)
    requires WellFormed(net) && Enabled(net, pending, s)
    ensures Rank(net, Next(net, pending, s)) < Rank(net, pending)
  {
    var d := pending[s.at];
    RankRemove(net, pending, s.at);
    var sent := Republished(net, d, s.rewrite);
    if sent.Some? {
      var sub := net.subs[d.sub];
      var spawned := Deliveries(s.out, d.topic, sent.value, d.path + [sub.bridge], d.dirs + [sub.direction]);
      RankConcat(net, pending[..s.at] + pending[s.at + 1..], spawned);
      IncreasingIsShort(s.out, |net.subs|);
      SpawnedWeighsLess(net, d, s.rewrite, spawned);
    }
  }

  lemma {:induction false} RunBound(net: Network, initial: seq<Delivery>, steps: seq<Step>)
    requires WellFormed(net) && Run(net, initial, steps).Some?
    ensures |steps| + Rank(net, Run(net, initial, steps).value) <= Rank(net, initial)
  {
    if steps != [] {
      var front := steps[..|steps| - 1];
      RunBound(net, initial, front);
      StepLowersRank(net, Run(net, initial, front).value, steps[|steps| - 1]);
    }
  }

  /** Loop protection: whatever the topology, the caps and the starting `_relay` value, a
      published message is handled at most n * (n+1)^h times over the whole network, for
      n subscriptions and h hops left. */
  lemma {:induction false} NetworkTerminates(net: Network, bus: nat, topic: string, payload: Bytes, out: seq<nat>,
                                             steps: seq<Step>)
    requires WellFormed(net) && Reaches(net, bus, topic, out)
    requires Run(net, Published(net, bus, topic, payload, out), steps).Some?
    ensures |steps| <= |net.subs| * Power(|net.subs| + 1, HopsLeft(net, payload))
  {
    var initial := Published(net, bus, topic, payload, out);
    RunBound(net, initial, steps);
    RankUniform(net, initial, payload);
    IncreasingIsShort(out, |net.subs|);
    ProductMonotone(|out|, |net.subs|, Weight(net, payload));
  }

  // ---- paths and fidelity ----

  function HopIds(net: Network, path: seq<nat>): (r: seq<Json>)
    requires forall k :: 0 <= k < |path| ==> path[k] < |net.bridges|
    ensures |r| == |path|
    ensures forall k :: 0 <= k < |path| ==> r[k] == JString(net.bridges[path[k]].engine.hopId)
  {
    seq(|path|, k requires 0 <= k < |path| => JString(net.bridges[path[k]].engine.hopId))
  }

  /** The message now carried is the one published, with the hop ids of the path
      appended in order; only a downward crossing may have changed its `reply_to`. */
  ghost predicate Carries(net: Network, m: Message, d: Delivery)
    requires forall k :: 0 <= k < |d.path| ==> d.path[k] < |net.bridges|
  {
    && net.codec.decode(d.payload).Some?
    && var now := net.codec.decode(d.payload).value;
    && now == WithHops(m, Hops(m) + HopIds(net, d.path)).(replyTo := now.replyTo)
    && (Downlink !in d.dirs ==> now.replyTo == m.replyTo)
  }

  /** Every crossing was routed, within its bridge's cap, and by a bridge whose id was not
      yet on the message. */
  ghost predicate Crossed(net: Network, topic: string, m: Message, d: Delivery)
    requires forall k :: 0 <= k < |d.path| ==> d.path[k] < |net.bridges|
  {
    && |d.dirs| == |d.path|
    && (forall k :: 0 <= k < |d.path| ==>
          && Routed(net.bridges[d.path[k]].engine, d.dirs[k], topic) == None
          && JString(net.bridges[d.path[k]].engine.hopId) !in Hops(m)
          && |Hops(m)| + k < net.bridges[d.path[k]].engine.maxHops)
    && (forall j, k :: 0 <= j < k < |d.path| ==>
          net.bridges[d.path[j]].engine.hopId != net.bridges[d.path[k]].engine.hopId)
  }

  /** What a message in transit is, relative to the message published. */
  ghost predicate InTransit(net: Network, topic: string, payload: Bytes, d: Delivery) {
    && d.topic == topic
    && (forall k :: 0 <= k < |d.path| ==> d.path[k] < |net.bridges|)
    && (d.path == [] ==> d.payload == payload && d.dirs == [])
    && (d.path != [] ==>
          && net.codec.decode(payload).Some?
          && Carries(net, net.codec.decode(payload).value, d)
          && Crossed(net, topic, net.codec.decode(payload).value, d))
  }

  lemma {:induction false} Restamped(m: Message, a: seq<Json>, b: seq<Json>, x: Option<string>, y: Option<string>)
    ensures WithHops(WithHops(m, a).(replyTo := x), b).(replyTo := y) == WithHops(m, b).(replyTo := y)
  {
    assert TagsOf(m)[RELAY_TAG := JArray(a)][RELAY_TAG := JArray(b)] == TagsOf(m)[RELAY_TAG := JArray(b)];
  }

  /** The hops on the message a bridge received, in terms of the one published. */
  lemma {:induction false} ReceivedHops(net: Network, topic: string, payload: Bytes, d: Delivery)
    requires InTransit(net, topic, payload, d) && net.codec.decode(d.payload).Some?
    ensures net.codec.decode(payload).Some?
    ensures var m := net.codec.decode(payload).value;
            Hops(net.codec.decode(d.payload).value) == Hops(m) + HopIds(net, d.path)
  {
    if d.path == [] {
      var m := net.codec.decode(payload).value;
      assert Hops(m) + HopIds(net, d.path) == Hops(m);
    }
  }

  lemma {:induction false} SpawnedCarries(net: Network, topic: string, payload: Bytes, d: Delivery,
                                          rewrite: Option<string>, next: Delivery)
    requires WellFormed(net) && d.sub < |net.subs|
    requires InTransit(net, topic, payload, d)
    requires Republished(net, d, rewrite).Some?
    requires next.payload == Republished(net, d, rewrite).value
    requires next.path == d.path + [net.subs[d.sub].bridge]
    requires next.dirs == d.dirs + [net.subs[d.sub].direction]
    ensures net.codec.decode(payload).Some? && Carries(net, net.codec.decode(payload).value, next)
  {
    RepublishedMessage(net, d, rewrite);
    ReceivedHops(net, topic, payload, d);
    var e := net.bridges[net.subs[d.sub].bridge].engine;
    var m, received := net.codec.decode(payload).value, net.codec.decode(d.payload).value;
    var now := net.codec.decode(next.payload).value;
    assert HopIds(net, next.path) == HopIds(net, d.path) + [JString(e.hopId)];
    assert Hops(received) + [JString(e.hopId)] == Hops(m) + HopIds(net, next.path);
    if d.path != [] {
      Restamped(m, Hops(received), Hops(m) + HopIds(net, next.path), received.replyTo, now.replyTo);
    }
  }

  lemma {:induction false} SpawnedCrossed(net: Network, topic: string, payload: Bytes, d: Delivery,
                                          rewrite: Option<string>, next: Delivery)
    requires WellFormed(net) && d.sub < |net.subs|
    requires InTransit(net, topic, payload, d)
    requires Republished(net, d, rewrite).Some?
    requires next.path == d.path + [net.subs[d.sub].bridge]
    requires next.dirs == d.dirs + [net.subs[d.sub].direction]
    ensures net.codec.decode(payload).Some? && Crossed(net, topic, net.codec.decode(payload).value, next)
  {
    RepublishedMessage(net, d, rewrite);
    ReceivedHops(net, topic, payload, d);
    var e := net.bridges[net.subs[d.sub].bridge].engine;
    var m := net.codec.decode(payload).value;
    var ids := HopIds(net, d.path);
    var received := Hops(m) + ids;
    assert JString(e.hopId) !in received && |received| < e.maxHops;
    forall k | 0 <= k < |d.path| ensures net.bridges[d.path[k]].engine.hopId != e.hopId {
      assert received[|Hops(m)| + k] == ids[k];
    }
    assert forall h :: h in Hops(m) ==> h in received;
  }

  lemma {:induction false} SpawnedInTransit(net: Network, topic: string, payload: Bytes, d: Delivery,
                                            rewrite: Option<string>, next: Delivery)
    requires WellFormed(net) && d.sub < |net.subs|
    requires InTransit(net, topic, payload, d)
    requires Republished(net, d, rewrite).Some?
    requires next.topic == topic && next.payload == Republished(net, d, rewrite).value
    requires next.path == d.path + [net.subs[d.sub].bridge]
    requires next.dirs == d.dirs + [net.subs[d.sub].direction]
    ensures InTransit(net, topic, payload, next)
  {
    SpawnedCarries(net, topic, payload, d, rewrite, next);
    SpawnedCrossed(net, topic, payload, d, rewrite, next);
  }

  /** After a step a pending delivery was pending before, or was sent by it. */
  lemma {:induction false} NextDeliveries(net: Network, pending: seq<Delivery>, s: Step, i: nat)
    requires Enabled(net, pending, s) && i < |Next(net, pending, s)|
    ensures var next, d := Next(net, pending, s)[i], pending[s.at];
            || next in pending
            || (&& Republished(net, d, s.rewrite).Some?
                && next.topic == d.topic && next.payload == Republished(net, d, s.rewrite).value
                && next.path == d.path + [net.subs[d.sub].bridge]
                && next.dirs == d.dirs + [net.subs[d.sub].direction])
  {
    if i < |pending| - 1 {
      assert Next(net, pending, s)[i] == pending[if i < s.at then i else i + 1];
    }
  }

  ghost predicate AllInTransit(net: Network, topic: string, payload: Bytes, pending: seq<Delivery>) {
    forall i :: 0 <= i < |pending| ==> InTransit(net, topic, payload, pending[i])
  }

  lemma {:induction false} StepInTransit(net: Network, topic: string, payload: Bytes, pending: seq<Delivery>, s: Step)
    requires WellFormed(net) && Enabled(net, pending, s) && AllInTransit(net, topic, payload, pending)
    ensures AllInTransit(net, topic, payload, Next(net, pending, s))
  {
    var after := Next(net, pending, s);
    forall i | 0 <= i < |after| ensures InTransit(net, topic, payload, after[i]) {
      NextDeliveries(net, pending, s, i);
      if after[i] !in pending {
        SpawnedInTransit(net, topic, payload, pending[s.at], s.rewrite, after[i]);
      }
    }
  }

  lemma {:induction false} RunInTransit(net: Network, bus: nat, topic: string, payload: Bytes, out: seq<nat>,
                                        steps: seq<Step>)
    requires WellFormed(net) && Reaches(net, bus, topic, out)
    requires Run(net, Published(net, bus, topic, payload, out), steps).Some?
    ensures AllInTransit(net, topic, payload, Run(net, Published(net, bus, topic, payload, out), steps).value)
  {
    if steps != [] {
      var front := steps[..|steps| - 1];
      RunInTransit(net, bus, topic, payload, out, front);
      var before := Run(net, Published(net, bus, topic, payload, out), front).value;
      StepInTransit(net, topic, payload, before, steps[|steps| - 1]);
    }
  }

  /** A path that ever goes down goes down once and stops. */
  lemma {:induction false} OneDirection(net: Network, topic: string, m: Message, d: Delivery)
    requires forall b :: 0 <= b < |net.bridges| ==> ValidEngine(net.bridges[b].engine)
    requires forall k :: 0 <= k < |d.path| ==> d.path[k] < |net.bridges|
    requires Crossed(net, topic, m, d)
    ensures (forall k :: 0 <= k < |d.dirs| ==> d.dirs[k] == Uplink) || d.dirs == [Downlink]
  {
    if k :| 0 <= k < |d.dirs| && d.dirs[k] == Downlink {
      assert Routed(net.bridges[d.path[k]].engine, Downlink, topic) == None;
      assert DecidedClass(topic) == Some(Cmd);
      forall j | 0 <= j < |d.dirs|
        ensures d.dirs[j] == Downlink && net.bridges[d.path[j]].engine.hopId == Split(topic)[1] + "/uns-bridge"
      {
        assert Routed(net.bridges[d.path[j]].engine, d.dirs[j], topic) == None;
        assert ValidEngine(net.bridges[d.path[j]].engine);
      }
      var last := |d.path| - 1;
      assert net.bridges[d.path[0]].engine.hopId == net.bridges[d.path[last]].engine.hopId;
    }
  }

  /** Every relay path of every run: no bridge twice, no longer than the hops that were
      left, all upward or a single downward crossing; and the message in transit is the
      one published with the hop ids of the path appended in order. */
  lemma {:induction false} RelayPaths(net: Network, bus: nat, topic: string, payload: Bytes, out: seq<nat>,
                                      steps: seq<Step>, i: nat)
    requires WellFormed(net) && Reaches(net, bus, topic, out)
    requires forall b :: 0 <= b < |net.bridges| ==> ValidEngine(net.bridges[b].engine)
    requires Run(net, Published(net, bus, topic, payload, out), steps).Some?
    requires i < |Run(net, Published(net, bus, topic, payload, out), steps).value|
    ensures var d := Run(net, Published(net, bus, topic, payload, out), steps).value[i];
            && InTransit(net, topic, payload, d)
            && (forall j, k :: 0 <= j < k < |d.path| ==> d.path[j] != d.path[k])
            && |d.path| <= HopsLeft(net, payload)
            && ((forall k :: 0 <= k < |d.dirs| ==> d.dirs[k] == Uplink) || d.dirs == [Downlink])
  {
    RunInTransit(net, bus, topic, payload, out, steps);
    var d := Run(net, Published(net, bus, topic, payload, out), steps).value[i];
    assert InTransit(net, topic, payload, d);
    if d.path != [] {
      var m := net.codec.decode(payload).value;
      OneDirection(net, topic, m, d);
      var last := |d.path| - 1;
      assert |Hops(m)| + last < net.bridges[d.path[last]].engine.maxHops;
      assert net.bridges[d.path[last]].engine.maxHops <= MaxHops(net.bridges);
    }
  }
}

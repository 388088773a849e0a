/** What reaches the site, over every run of pumps and watcher, is what was received: under
    its own topic, with its own content and one hop more, and no more often. */
module UplinkFidelity {
  import opened Wrappers
  import opened Messages
  import opened Relay
  import opened Policy
  import opened Governor
  import opened ReplayWindow
  import opened PumpOrder
  import opened UplinkContent

  /** The item is what `decide` forwards of a message received, under its topic. */
  predicate IsForwarded(cfg: Config, r: Received, item: Item) {
    && item.topic == r.topic
    && Decide(cfg.engine, cfg.codec, Uplink, r.topic, r.payload) == RelayDecision.Forward(item.bytes)
  }

  ghost predicate WasReceived(cfg: Config, inbox: seq<Received>, item: Item) {
    exists n :: 0 <= n < |inbox| && IsForwarded(cfg, inbox[n], item)
  }

  /** The message received as number `n`, by pump `i`, is the one behind the item. */
  predicate Behind(cfg: Config, inbox: seq<Received>, n: nat, i: nat, item: Item) {
    n < |inbox| && inbox[n].pump == i && IsForwarded(cfg, inbox[n], item)
  }

  ghost predicate Genuine(cfg: Config, s: GovState) {
    && |s.pumps| == |cfg.classes| && |s.inbox| == s.received && |s.origins| == |s.site|
    && (forall i :: 0 <= i < |s.pumps| && !s.pumps[i].Idle? ==>
          i in s.hands && Behind(cfg, s.inbox, s.hands[i], i, s.pumps[i].item))
    && (forall j :: 0 <= j < |s.evts.log| ==> WasReceived(cfg, s.inbox, s.evts.log[j]))
    && (forall q :: 0 <= q < |s.site| ==>
          && WasReceived(cfg, s.inbox, s.site[q].item)
          && (s.site[q].Live? ==>
                && s.origins[q].Some?
                && Behind(cfg, s.inbox, s.origins[q].value.from, s.origins[q].value.pump, s.site[q].item)))
  }

  lemma StillReceived(cfg: Config, inbox: seq<Received>, r: Received, item: Item)
    requires WasReceived(cfg, inbox, item)
    ensures WasReceived(cfg, inbox + [r], item)
  {
    var n :| 0 <= n < |inbox| && IsForwarded(cfg, inbox[n], item);
    assert (inbox + [r])[n] == inbox[n];
  }

  lemma BehindWasReceived(cfg: Config, inbox: seq<Received>, n: nat, i: nat, item: Item)
    requires Behind(cfg, inbox, n, i, item)
    ensures WasReceived(cfg, inbox, item)
  {
  }

  lemma ReceiveGenuine(cfg: Config, s: GovState, i: nat, topic: string, payload: Bytes)
    requires Genuine(cfg, s) && Possible(cfg, s, Receive(i, topic, payload))
    ensures Genuine(cfg, OnReceive(cfg, s, i, topic, payload))
  {
    var t, r := OnReceive(cfg, s, i, topic, payload), Received(i, topic, payload);
    assert t.inbox == s.inbox + [r] && t.site == s.site && t.origins == s.origins && t.evts == s.evts;
    assert forall n :: 0 <= n < |s.inbox| ==> t.inbox[n] == s.inbox[n];
    forall j | 0 <= j < |t.evts.log| ensures WasReceived(cfg, t.inbox, t.evts.log[j]) {
      StillReceived(cfg, s.inbox, r, s.evts.log[j]);
    }
    forall q | 0 <= q < |t.site| ensures WasReceived(cfg, t.inbox, t.site[q].item) {
      StillReceived(cfg, s.inbox, r, s.site[q].item);
    }
  }

  /** Pushing what a pump holds. */
  lemma PushGenuine(cfg: Config, s: GovState, t: GovState, i: nat)
    requires Genuine(cfg, s) && i < |s.pumps| && !s.pumps[i].Idle?
    requires t.inbox == s.inbox && t.received == s.received && t.hands == s.hands
    requires t.site == s.site && t.origins == s.origins
    requires t.evts.log == s.evts.log || t.evts.log == s.evts.log + [s.pumps[i].item]
    requires |t.pumps| == |s.pumps| && t.pumps == s.pumps[i := t.pumps[i]]
    requires t.pumps[i].Idle? || t.pumps[i].item == s.pumps[i].item
    ensures Genuine(cfg, t)
  {
    BehindWasReceived(cfg, s.inbox, s.hands[i], i, s.pumps[i].item);
    assert forall k :: 0 <= k < |t.pumps| && k != i ==> t.pumps[k] == s.pumps[k];
  }

  lemma LiveGenuine(cfg: Config, s: GovState, i: nat)
    requires Genuine(cfg, s) && Possible(cfg, s, Publish(i, true))
    ensures Genuine(cfg, OnPublish(cfg, s, i, true))
  {
    var t := OnPublish(cfg, s, i, true);
    BehindWasReceived(cfg, s.inbox, s.hands[i], i, s.pumps[i].item);
    assert forall k :: 0 <= k < |t.pumps| && k != i ==> t.pumps[k] == s.pumps[k];
    assert forall q :: 0 <= q < |s.site| ==> t.site[q] == s.site[q] && t.origins[q] == s.origins[q];
  }

  lemma ReplayGenuine(cfg: Config, s: GovState, ok: bool)
    requires Genuine(cfg, s) && EvtInv(cfg, s) && s.pc.Flying?
    ensures Genuine(cfg, OnPublishReplay(s, ok))
  {
    var t := OnPublishReplay(s, ok);
    assert WasReceived(cfg, s.inbox, s.evts.log[s.pc.index]);
    assert forall q :: 0 <= q < |s.site| ==> t.site[q] == s.site[q] && t.origins[q] == s.origins[q];
  }

  /** The watcher's other steps receive, push and land nothing. */
  lemma QuietGenuine(cfg: Config, s: GovState, t: GovState)
    requires Genuine(cfg, s) && t.pumps == s.pumps && t.hands == s.hands && t.inbox == s.inbox
    requires t.received == s.received && t.evts == s.evts && t.site == s.site && t.origins == s.origins
    ensures Genuine(cfg, t)
  {
  }

  lemma AdmitGenuine(cfg: Config, s: GovState, i: nat, connected: bool, now: real)
    requires Genuine(cfg, s) && Possible(cfg, s, Admit(i, connected, now))
    ensures Genuine(cfg, OnAdmit(cfg, s, i, connected, now))
  {
    PushGenuine(cfg, s, OnAdmit(cfg, s, i, connected, now), i);
  }

  lemma PublishGenuine(cfg: Config, s: GovState, i: nat, ok: bool)
    requires Genuine(cfg, s) && Possible(cfg, s, Publish(i, ok))
    ensures Genuine(cfg, OnPublish(cfg, s, i, ok))
  {
    if ok { LiveGenuine(cfg, s, i); } else { PushGenuine(cfg, s, OnPublish(cfg, s, i, ok), i); }
  }

  lemma GenuineStep(cfg: Config, s: GovState, a: Action)
    requires Genuine(cfg, s) && EvtInv(cfg, s) && Possible(cfg, s, a)
    ensures Genuine(cfg, Step(cfg, s, a))
  {
    match a
    case Receive(i, topic, payload) => ReceiveGenuine(cfg, s, i, topic, payload);
    case Admit(i, connected, now) => AdmitGenuine(cfg, s, i, connected, now);
    case Publish(i, ok) => PublishGenuine(cfg, s, i, ok);
    case PublishReplay(ok) => ReplayGenuine(cfg, s, ok);
    case Tick(connected) => QuietGenuine(cfg, s, OnTick(s, connected));
    case Announce => QuietGenuine(cfg, s, OnAnnounce(s));
    case CheckPending => QuietGenuine(cfg, s, Step(cfg, s, a));
    case TakeOldest(connected) => QuietGenuine(cfg, s, OnTakeOldest(s, connected));
  }

  lemma {:induction false} GenuineInvariant(cfg: Config, actions: seq<Action>)
    requires Run(cfg, actions).Some?
    ensures Genuine(cfg, Run(cfg, actions).value)
    decreases |actions|
  {
    if actions != [] {
      var front := actions[..|actions| - 1];
      EvtInvariant(cfg, front);
      GenuineInvariant(cfg, front);
      GenuineStep(cfg, Run(cfg, front).value, actions[|actions| - 1]);
    }
  }

  /** Every landing, live or replayed, is a message received, on its own topic, with its own
      content and this bridge's id appended to its hops. */
  lemma LandingIsReceived(cfg: Config, actions: seq<Action>, q: nat) returns (n: nat)
    requires WellBehaved(cfg.codec) && Run(cfg, actions).Some? && q < |Run(cfg, actions).value.site|
    ensures var s := Run(cfg, actions).value;
            && n < |s.inbox| && s.inbox[n].topic == s.site[q].item.topic
            && cfg.codec.decode(s.inbox[n].payload).Some?
            && var m := cfg.codec.decode(s.inbox[n].payload).value;
            cfg.codec.decode(s.site[q].item.bytes) == Some(WithHops(m, Hops(m) + [JString(cfg.engine.hopId)]))
  {
    GenuineInvariant(cfg, actions);
    var s := Run(cfg, actions).value;
    assert WasReceived(cfg, s.inbox, s.site[q].item);
    n :| 0 <= n < |s.inbox| && IsForwarded(cfg, s.inbox[n], s.site[q].item);
    ForwardAppendsOneHop(cfg.engine, cfg.codec, Uplink, s.inbox[n].topic, s.inbox[n].payload);
  }

  /** And the live landing of a pump is, in its order of reception, what that pump received. */
  lemma LiveIsItsPumps(cfg: Config, actions: seq<Action>, q: nat)
    requires Run(cfg, actions).Some?
    requires q < |Run(cfg, actions).value.site| && Run(cfg, actions).value.site[q].Live?
    ensures var s := Run(cfg, actions).value;
            && |s.origins| == |s.site| && s.origins[q].Some?
            && var o := s.origins[q].value;
            && o.pump < |cfg.classes| && s.site[q].cls == cfg.classes[o.pump]
            && o.from < |s.inbox| && s.inbox[o.from].pump == o.pump && IsForwarded(cfg, s.inbox[o.from], s.site[q].item)
  {
    GenuineInvariant(cfg, actions);
    SerialInvariant(cfg, actions);
  }

  // ---- counting ----

  /** The items forwarded of a sequence of messages received. */
  function Forwarded(cfg: Config, inbox: seq<Received>): multiset<Item> {
    if inbox == [] then multiset{}
    else
      var last := inbox[|inbox| - 1];
      var d := Decide(cfg.engine, cfg.codec, Uplink, last.topic, last.payload);
      Forwarded(cfg, inbox[..|inbox| - 1]) +
      if d.Forward? then multiset{Item(last.topic, d.bytes)} else multiset{}
  }

  lemma AcceptedMore(cfg: Config, s: GovState, i: nat, topic: string, payload: Bytes)
    requires Possible(cfg, s, Receive(i, topic, payload)) && s.accepted == Forwarded(cfg, s.inbox)
    ensures var t := OnReceive(cfg, s, i, topic, payload); t.accepted == Forwarded(cfg, t.inbox)
  {
    assert (s.inbox + [Received(i, topic, payload)])[..|s.inbox|] == s.inbox;
  }

  lemma AcceptedStep(cfg: Config, s: GovState, a: Action)
    requires Possible(cfg, s, a) && s.accepted == Forwarded(cfg, s.inbox)
    ensures Step(cfg, s, a).accepted == Forwarded(cfg, Step(cfg, s, a).inbox)
  {
    if a.Receive? {
      AcceptedMore(cfg, s, a.pump, a.topic, a.payload);
    } else {
      assert Step(cfg, s, a).inbox == s.inbox && Step(cfg, s, a).accepted == s.accepted;
    }
  }

  lemma {:induction false} AcceptedIsForwarded(cfg: Config, actions: seq<Action>)
    requires Run(cfg, actions).Some?
    ensures Run(cfg, actions).value.accepted == Forwarded(cfg, Run(cfg, actions).value.inbox)
    decreases |actions|
  {
    if actions != [] {
      var front := actions[..|actions| - 1];
      AcceptedIsForwarded(cfg, front);
      AcceptedStep(cfg, Run(cfg, front).value, actions[|actions| - 1]);
    }
  }

  /** No item lands, live and replayed together, more often than messages received forward to it. */
  lemma NoMoreThanReceived(cfg: Config, actions: seq<Action>, x: Item)
    requires ValidConfig(cfg) && Run(cfg, actions).Some?
    ensures LandedOf(Run(cfg, actions).value.site, x) <= Forwarded(cfg, Run(cfg, actions).value.inbox)[x]
  {
    NothingInvented(cfg, actions, x);
    AcceptedIsForwarded(cfg, actions);
  }
}

/** What the configuration switches off stays off, what the counters call uplinked did
    land, and nothing lands that was not received, nor more often. */
module UplinkContent {
  import opened Wrappers
  import opened Topics
  import opened Messages
  import opened Relay
  import opened Policy
  import opened Governor
  import opened ReplayWindow
  import opened UplinkAccounts

  // ---- the configuration is honoured ----

  /** Enables, the rate and burst of each cap and the buffer bound are those configured,
      whatever has happened. */
  ghost predicate Faithful(p: PolicyState, configured: PolicyState) {
    && Policy.WellFormed(p) && Policy.WellFormed(configured)
    && p.evtBufferMax == configured.evtBufferMax
    && forall k :: 0 <= k < 7 ==>
         && p.classes[k].enabled == configured.classes[k].enabled
         && (p.classes[k].bucket.None? <==> configured.classes[k].bucket.None?)
         && (p.classes[k].bucket.Some? ==>
               && p.classes[k].bucket.value.rate == configured.classes[k].bucket.value.rate
               && p.classes[k].bucket.value.capacity == configured.classes[k].bucket.value.capacity)
  }

  /** No counter moves that the configuration rules out. */
  ghost predicate SlotHonoured(p: PolicyState, k: Counters, slot: nat)
    requires Policy.WellFormed(p) && slot < 7
  {
    && (if p.classes[slot].enabled then k.disabled[slot] == 0
        else k.uplinked[slot] == 0 && k.rate[slot] == 0 && k.disconnected[slot] == 0)
    && (p.classes[slot].bucket.None? ==> k.rate[slot] == 0)
    && (POLICY_CLASSES[slot] == Evt ==>
          && (p.evtBufferMax > 0 ==> k.disconnected[slot] == 0)
          && (p.evtBufferMax == 0 || !p.classes[slot].enabled ==> k.evtBuffered == 0))
  }

  ghost predicate Honoured(cfg: Config, s: GovState) {
    && |s.pumps| == |cfg.classes|
    && Faithful(s.policy, Configured(cfg.uplink))
    && (forall slot :: 0 <= slot < 7 ==> SlotHonoured(Configured(cfg.uplink), s.counters, slot))
    && (forall i :: 0 <= i < |s.pumps| && s.pumps[i].Publishing? ==>
          ClassIndex(cfg.classes[i]).Some? ==> s.policy.classes[ClassIndex(cfg.classes[i]).value].enabled)
  }

  lemma ConfiguredWellFormed(cfg: UplinkConfig)
    ensures Policy.WellFormed(Configured(cfg))
  {
  }

  lemma PushFaithful(p: PolicyState, q: PolicyState, item: Item)
    requires Faithful(p, q)
    ensures Faithful(Push(p, item).0, q) && Faithful(Pop(p).0, q) && Faithful(Requeue(p, item).0, q)
  {
  }

  lemma AdmissionFaithful(p: PolicyState, q: PolicyState, c: UnsClass, connected: bool, now: real)
    requires Faithful(p, q)
    ensures Faithful(Admission(p, c, connected, now).0, q)
  {
  }

  lemma AdmitScopeHonours(p: PolicyState, q: PolicyState, k: Counters, c: UnsClass, item: Item, connected: bool,
                          now: real, slot: nat)
    requires Faithful(p, q) && slot < 7 && SlotHonoured(q, k, slot) && c != Cmd
    ensures SlotHonoured(q, AdmitScope(p, k, c, item, connected, now).counters, slot)
    ensures AdmitScope(p, k, c, item, connected, now).forward ==> p.classes[ClassIndex(c).value].enabled
  {
    var (r, verdict) := Admission(p, c, connected, now);
    AdmissionFaithful(p, q, c, connected, now);
    match verdict
    case Forward =>
    case Buffer => assert c == Evt;
    case DropDisabled => IncrAt(k.disabled, c, slot);
    case DropDisconnected => IncrAt(k.disconnected, c, slot);
    case DropRateCapped => IncrAt(k.rate, c, slot);
  }

  lemma FailScopeHonours(p: PolicyState, q: PolicyState, k: Counters, c: UnsClass, item: Item, slot: nat)
    requires Faithful(p, q) && slot < 7 && SlotHonoured(q, k, slot) && c != Cmd
    requires p.classes[ClassIndex(c).value].enabled
    ensures SlotHonoured(q, FailScope(p, k, c, item).counters, slot)
  {
    IncrAt(k.disconnected, c, slot);
  }

  lemma AdmitHonours(cfg: Config, s: GovState, i: nat, connected: bool, now: real)
    requires ValidConfig(cfg) && Honoured(cfg, s) && Possible(cfg, s, Admit(i, connected, now))
    ensures Honoured(cfg, OnAdmit(cfg, s, i, connected, now))
  {
    var q, c, item := Configured(cfg.uplink), cfg.classes[i], s.pumps[i].item;
    var t := OnAdmit(cfg, s, i, connected, now);
    AdmissionFaithful(s.policy, q, c, connected, now);
    PushFaithful(Admission(s.policy, c, connected, now).0, q, item);
    assert Faithful(t.policy, q);
    forall slot | 0 <= slot < 7 ensures SlotHonoured(q, t.counters, slot) {
      AdmitScopeHonours(s.policy, q, s.counters, c, item, connected, now, slot);
    }
    AdmitScopeHonours(s.policy, q, s.counters, c, item, connected, now, 0);
  }

  lemma PublishHonours(cfg: Config, s: GovState, i: nat, ok: bool)
    requires ValidConfig(cfg) && Honoured(cfg, s) && Possible(cfg, s, Publish(i, ok))
    ensures Honoured(cfg, OnPublish(cfg, s, i, ok))
  {
    var q, c, item := Configured(cfg.uplink), cfg.classes[i], s.pumps[i].item;
    var t := OnPublish(cfg, s, i, ok);
    PushFaithful(s.policy, q, item);
    forall slot | 0 <= slot < 7 ensures SlotHonoured(q, t.counters, slot) {
      IncrAt(s.counters.uplinked, c, slot);
      FailScopeHonours(s.policy, q, s.counters, c, item, slot);
    }
  }

  lemma ReceiveHonours(cfg: Config, s: GovState, i: nat, topic: string, payload: Bytes)
    requires Honoured(cfg, s) && Possible(cfg, s, Receive(i, topic, payload))
    ensures Honoured(cfg, OnReceive(cfg, s, i, topic, payload))
  {
    var q, t := Configured(cfg.uplink), OnReceive(cfg, s, i, topic, payload);
    assert t.policy == s.policy;
    forall slot | 0 <= slot < 7 ensures SlotHonoured(q, t.counters, slot) {
      assert SlotHonoured(q, s.counters, slot);
    }
  }

  /** The watcher's steps leave the counters of the live path and the pumps alone. */
  lemma WatcherHonours(cfg: Config, s: GovState, t: GovState)
    requires Honoured(cfg, s) && t.pumps == s.pumps
    requires Faithful(t.policy, Configured(cfg.uplink)) && t.policy.classes == s.policy.classes
    requires t.counters ==
             s.counters.(evtReplayed := t.counters.evtReplayed, evtBufferDropped := t.counters.evtBufferDropped)
    ensures Honoured(cfg, t)
  {
    var q := Configured(cfg.uplink);
    forall slot | 0 <= slot < 7 ensures SlotHonoured(q, t.counters, slot) {
      assert SlotHonoured(q, s.counters, slot);
    }
  }

  lemma HonouredStep(cfg: Config, s: GovState, a: Action)
    requires ValidConfig(cfg) && Honoured(cfg, s) && Possible(cfg, s, a)
    ensures Honoured(cfg, Step(cfg, s, a))
  {
    match a
    case Receive(i, topic, payload) => ReceiveHonours(cfg, s, i, topic, payload);
    case Admit(i, connected, now) => AdmitHonours(cfg, s, i, connected, now);
    case Publish(i, ok) => PublishHonours(cfg, s, i, ok);
    case Tick(connected) => WatcherHonours(cfg, s, OnTick(s, connected));
    case Announce => WatcherHonours(cfg, s, OnAnnounce(s));
    case CheckPending => WatcherHonours(cfg, s, Step(cfg, s, a));
    case TakeOldest(connected) =>
      PushFaithful(s.policy, Configured(cfg.uplink), Item("", []));
      WatcherHonours(cfg, s, OnTakeOldest(s, connected));
    case PublishReplay(ok) =>
      PushFaithful(s.policy, Configured(cfg.uplink), s.pc.item);
      WatcherHonours(cfg, s, OnPublishReplay(s, ok));
  }

  lemma {:induction false} ConfigurationHonoured(cfg: Config, actions: seq<Action>)
    requires ValidConfig(cfg) && Run(cfg, actions).Some?
    ensures Honoured(cfg, Run(cfg, actions).value)
    decreases |actions|
  {
    if actions == [] {
      ConfiguredWellFormed(cfg.uplink);
    } else {
      var front := actions[..|actions| - 1];
      ConfigurationHonoured(cfg, front);
      HonouredStep(cfg, Run(cfg, front).value, actions[|actions| - 1]);
    }
  }

  /** In every run: a disabled class only ever counts as disabled and an enabled one never
      does; an uncapped class is never rate-dropped; and an `evt` is dropped for a lost
      link only with buffering off, buffered only with it on. */
  lemma SwitchesHold(cfg: Config, actions: seq<Action>, c: UnsClass)
    requires ValidConfig(cfg) && Run(cfg, actions).Some? && c != Cmd
    ensures var k, slot, p := Run(cfg, actions).value.counters, ClassIndex(c).value, Configured(cfg.uplink);
            && (p.classes[slot].enabled ==> k.disabled[slot] == 0)
            && (!p.classes[slot].enabled ==> k.uplinked[slot] == k.rate[slot] == k.disconnected[slot] == 0)
            && (p.classes[slot].bucket.None? ==> k.rate[slot] == 0)
            && (c == Evt && p.evtBufferMax > 0 ==> k.disconnected[slot] == 0)
            && (c == Evt && (p.evtBufferMax == 0 || !p.classes[slot].enabled) ==> k.evtBuffered == 0)
  {
    ConfigurationHonoured(cfg, actions);
    assert SlotHonoured(Configured(cfg.uplink), Run(cfg, actions).value.counters, ClassIndex(c).value);
  }

  /** `bufferWhileDisconnected` is honoured for `evt` only. */
  lemma BufferKnobIsEvtOnly(cfg: UplinkConfig, c: UnsClass, knob: Option<BufferConfig>)
    requires c != Evt
    ensures Configured(cfg[Token(c) := Lookup(cfg, c).(bufferWhileDisconnected := knob)]) == Configured(cfg)
  {
    var changed := cfg[Token(c) := Lookup(cfg, c).(bufferWhileDisconnected := knob)];
    forall d: UnsClass
      ensures Lookup(changed, d) == if d == c then Lookup(cfg, c).(bufferWhileDisconnected := knob) else Lookup(cfg, d)
    {
      TokensDistinct(c, d);
    }
  }

  // ---- landings ----

  function Lives(site: seq<Landing>, slot: nat): nat {
    if site == [] then 0
    else
      var last := site[|site| - 1];
      Lives(site[..|site| - 1], slot) + if last.Live? && ClassIndex(last.cls) == Some(slot) then 1 else 0
  }

  function Replays(site: seq<Landing>): nat {
    if site == [] then 0 else Replays(site[..|site| - 1]) + if site[|site| - 1].Replay? then 1 else 0
  }

  lemma LandingAdds(site: seq<Landing>, l: Landing, slot: nat)
    ensures Lives(site + [l], slot) == Lives(site, slot) + if l.Live? && ClassIndex(l.cls) == Some(slot) then 1 else 0
    ensures Replays(site + [l]) == Replays(site) + if l.Replay? then 1 else 0
  {
    assert (site + [l])[..|site|] == site;
  }

  ghost predicate LandingsCounted(s: GovState) {
    && (forall slot :: 0 <= slot < 7 ==> s.counters.uplinked[slot] == Lives(s.site, slot))
    && s.counters.evtReplayed == Replays(s.site)
  }

  /** A landing changes the counts of its own class and kind only. */
  lemma LandingCounted(s: GovState, t: GovState, l: Landing)
    requires LandingsCounted(s) && t.site == s.site + [l]
    requires forall slot :: 0 <= slot < 7 ==>
               t.counters.uplinked[slot] ==
               s.counters.uplinked[slot] + if l.Live? && ClassIndex(l.cls) == Some(slot) then 1 else 0
    requires t.counters.evtReplayed == s.counters.evtReplayed + if l.Replay? then 1 else 0
    ensures LandingsCounted(t)
  {
    LandingAdds(s.site, l, 0);
    forall slot | 0 <= slot < 7 ensures t.counters.uplinked[slot] == Lives(t.site, slot) {
      LandingAdds(s.site, l, slot);
    }
  }

  lemma PublishCounted(cfg: Config, s: GovState, i: nat, ok: bool)
    requires LandingsCounted(s) && Possible(cfg, s, Publish(i, ok))
    ensures LandingsCounted(OnPublish(cfg, s, i, ok))
  {
    if ok {
      forall slot | 0 <= slot < 7
        ensures Incr(s.counters.uplinked, cfg.classes[i])[slot] ==
                s.counters.uplinked[slot] + if ClassIndex(cfg.classes[i]) == Some(slot) then 1 else 0
      {
        IncrAt(s.counters.uplinked, cfg.classes[i], slot);
      }
      LandingCounted(s, OnPublish(cfg, s, i, ok), OnPublish(cfg, s, i, ok).site[|s.site|]);
    }
  }

  lemma ReplayCounted(s: GovState, ok: bool)
    requires LandingsCounted(s) && s.pc.Flying?
    ensures LandingsCounted(OnPublishReplay(s, ok))
  {
    if ok { LandingCounted(s, OnPublishReplay(s, ok), OnPublishReplay(s, ok).site[|s.site|]); }
  }

  lemma LandingsStep(cfg: Config, s: GovState, a: Action)
    requires LandingsCounted(s) && Possible(cfg, s, a)
    ensures LandingsCounted(Step(cfg, s, a))
  {
    match a
    case Admit(i, connected, now) =>
      AdmitScopePasses(s.policy, s.counters, cfg.classes[i], s.pumps[i].item, connected, now);
    case Publish(i, ok) => PublishCounted(cfg, s, i, ok);
    case PublishReplay(ok) => ReplayCounted(s, ok);
    case _ =>
  }

  /** The uplinked and replayed counters are the landings at the site broker, by class. */
  lemma {:induction false} CountersAreLandings(cfg: Config, actions: seq<Action>)
    requires Run(cfg, actions).Some?
    ensures LandingsCounted(Run(cfg, actions).value)
    decreases |actions|
  {
    if actions != [] {
      var front := actions[..|actions| - 1];
      CountersAreLandings(cfg, front);
      LandingsStep(cfg, Run(cfg, front).value, actions[|actions| - 1]);
    }
  }

  // ---- content ----

  /** Live landings of one message, and all its landings. */
  function LiveOf(site: seq<Landing>, x: Item): nat {
    if site == [] then 0
    else LiveOf(site[..|site| - 1], x) + if site[|site| - 1].Live? && site[|site| - 1].item == x then 1 else 0
  }

  function LandedOf(site: seq<Landing>, x: Item): nat {
    if site == [] then 0
    else LandedOf(site[..|site| - 1], x) + if site[|site| - 1].item == x then 1 else 0
  }

  function InHand(p: Pump, x: Item): nat { if !p.Idle? && p.item == x then 1 else 0 }

  function HeldOf(pumps: seq<Pump>, x: Item): nat {
    if pumps == [] then 0 else InHand(pumps[0], x) + HeldOf(pumps[1..], x)
  }

  lemma {:induction false} HeldUpdate(pumps: seq<Pump>, i: nat, p: Pump, x: Item)
    requires i < |pumps|
    ensures HeldOf(pumps[i := p], x) + InHand(pumps[i], x) == HeldOf(pumps, x) + InHand(p, x)
  {
    var updated := pumps[i := p];
    if i == 0 {
      assert updated[1..] == pumps[1..];
    } else {
      HeldUpdate(pumps[1..], i - 1, p, x);
      assert updated[1..] == pumps[1..][i - 1 := p];
    }
  }

  lemma {:induction false} IdleHoldsNothing(pumps: seq<Pump>, x: Item)
    requires forall i :: 0 <= i < |pumps| ==> pumps[i].Idle?
    ensures HeldOf(pumps, x) == 0
  {
    if pumps != [] { IdleHoldsNothing(pumps[1..], x); }
  }

  function Times(log: seq<Item>, x: Item): nat { multiset(log)[x] }

  /** Live landings, stored pushes and copies in the pumps' hands were all accepted. */
  ghost predicate Sourced(s: GovState, x: Item) {
    LiveOf(s.site, x) + Times(s.evts.log, x) + HeldOf(s.pumps, x) <= s.accepted[x]
  }

  lemma LoggedOnce(p: PolicyState, h: Evts, item: Item, x: Item)
    ensures Times(Logged(p, h, item).log, x) <= Times(h.log, x) + if item == x then 1 else 0
  {
  }

  lemma LiveAdds(site: seq<Landing>, l: Landing, x: Item)
    ensures LiveOf(site + [l], x) == LiveOf(site, x) + if l.Live? && l.item == x then 1 else 0
  {
    assert (site + [l])[..|site|] == site;
  }

  lemma ReceiveSourced(cfg: Config, s: GovState, i: nat, topic: string, payload: Bytes, x: Item)
    requires Sourced(s, x) && Possible(cfg, s, Receive(i, topic, payload))
    ensures Sourced(OnReceive(cfg, s, i, topic, payload), x)
  {
    match Decide(cfg.engine, cfg.codec, Uplink, topic, payload)
    case Drop(_) =>
    case Forward(bytes) => HeldUpdate(s.pumps, i, Ready(Item(topic, bytes)), x);
  }

  lemma AdmitSourced(cfg: Config, s: GovState, i: nat, connected: bool, now: real, x: Item)
    requires Sourced(s, x) && Possible(cfg, s, Admit(i, connected, now))
    ensures Sourced(OnAdmit(cfg, s, i, connected, now), x)
  {
    var t := OnAdmit(cfg, s, i, connected, now);
    LoggedOnce(s.policy, s.evts, s.pumps[i].item, x);
    HeldUpdate(s.pumps, i, t.pumps[i], x);
    AdmitScopePasses(s.policy, s.counters, cfg.classes[i], s.pumps[i].item, connected, now);
  }

  lemma PublishSourced(cfg: Config, s: GovState, i: nat, ok: bool, x: Item)
    requires Sourced(s, x) && Possible(cfg, s, Publish(i, ok))
    ensures Sourced(OnPublish(cfg, s, i, ok), x)
  {
    var pump := s.pumps[i];
    LoggedOnce(s.policy, s.evts, pump.item, x);
    HeldUpdate(s.pumps, i, Idle, x);
    LiveAdds(s.site, Live(cfg.classes[i], pump.item, pump.seen, pump.flying, pump.order), x);
  }

  lemma SourcedStep(cfg: Config, s: GovState, a: Action, x: Item)
    requires Sourced(s, x) && Possible(cfg, s, a)
    ensures Sourced(Step(cfg, s, a), x)
  {
    match a
    case Receive(i, topic, payload) => ReceiveSourced(cfg, s, i, topic, payload, x);
    case Admit(i, connected, now) => AdmitSourced(cfg, s, i, connected, now, x);
    case Publish(i, ok) => PublishSourced(cfg, s, i, ok, x);
    case PublishReplay(ok) => LiveAdds(s.site, Replay(s.pc.index, s.pc.item, OrderOf(s.line, s.pc.index)), x);
    case _ =>
  }

  lemma {:induction false} SourcedInvariant(cfg: Config, actions: seq<Action>, x: Item)
    requires Run(cfg, actions).Some?
    ensures Sourced(Run(cfg, actions).value, x)
    decreases |actions|
  {
    if actions == [] {
      IdleHoldsNothing(Initial(cfg).pumps, x);
    } else {
      var front := actions[..|actions| - 1];
      SourcedInvariant(cfg, front, x);
      SourcedStep(cfg, Run(cfg, front).value, actions[|actions| - 1], x);
    }
  }

  lemma {:induction false} NoReplays(site: seq<Landing>, x: Item)
    requires Replays(site) == 0
    ensures LandedOf(site, x) == LiveOf(site, x)
  {
    if site != [] { NoReplays(site[..|site| - 1], x); }
  }

  lemma PrefixTimes(log: seq<Item>, k: nat, n: nat, x: Item)
    requires k < n <= |log|
    ensures Times(log[..k], x) + (if log[k] == x then 1 else 0) <= Times(log[..n], x)
  {
    assert log[..n] == log[..k] + [log[k]] + log[k + 1..n];
  }

  /** Replays in push order, each of its own push, take nothing twice from the log. */
  lemma {:induction false} ReplaysWithinLog(site: seq<Landing>, log: seq<Item>, n: nat, x: Item)
    requires n <= |log|
    requires forall q :: 0 <= q < |site| && site[q].Replay? ==> site[q].index < n && site[q].item == log[site[q].index]
    requires forall p, q :: 0 <= p < q < |site| && site[p].Replay? && site[q].Replay? ==> site[p].index < site[q].index
    ensures LandedOf(site, x) <= LiveOf(site, x) + Times(log[..n], x)
    decreases |site|
  {
    if site != [] {
      var front, last := site[..|site| - 1], site[|site| - 1];
      if last.Replay? {
        ReplaysWithinLog(front, log, last.index, x);
        PrefixTimes(log, last.index, n, x);
      } else {
        ReplaysWithinLog(front, log, n, x);
      }
    }
  }

  /** Nothing invented, nothing doubled: over live publishes and replays together, no
      message lands at the site more often than pumps were told to forward it. */
  lemma NothingInvented(cfg: Config, actions: seq<Action>, x: Item)
    requires ValidConfig(cfg) && Run(cfg, actions).Some?
    ensures LandedOf(Run(cfg, actions).value.site, x) <= Run(cfg, actions).value.accepted[x]
  {
    var s := Run(cfg, actions).value;
    SourcedInvariant(cfg, actions, x);
    EvtInvariant(cfg, actions);
    OrderInvariant(cfg, actions);
    if s.policy.evtBufferMax > 0 {
      ReplaysWithinLog(s.site, s.evts.log, |s.evts.log|, x);
      assert s.evts.log[..|s.evts.log|] == s.evts.log;
    } else {
      CountersAreLandings(cfg, actions);
      SwitchesHold(cfg, actions, Evt);
      NoReplays(s.site, x);
    }
  }

  /** The pumps of a constructed engine are all for classes the policy governs. */
  lemma EnginePumpsAreGoverned(e: RelayEngine, classes: seq<UnsClass>)
    requires ValidEngine(e) && |classes| == |e.uplinkFilters|
    requires forall k :: 0 <= k < |classes| ==> classes[k] == e.uplinkFilters[k].0
    ensures Cmd !in classes
  {
    RelayedClassesDistinct(e.appEnabled);
    forall k | 0 <= k < |classes| ensures classes[k] != Cmd {
      assert classes[k] == RelayedClasses(e.appEnabled)[k / 2];
      assert UplinkRelayed(e.appEnabled, classes[k]);
    }
  }
}

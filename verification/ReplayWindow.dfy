/** The `evt` replay buffer over every interleaving of pumps and watcher: what it holds,
    what becomes of each event, and which pushed event a live one can overtake. */
module ReplayWindow {
  import opened Wrappers
  import opened Topics
  import opened Messages
  import opened Policy
  import opened Governor

  // ---- the buffer as a window of the push sequence ----

  /** Index of the oldest buffered event in the push sequence. */
  function Base(b: seq<Item>, h: Evts): int { |h.log| - |b| }

  /** The buffer `b` is the last pushes, contiguously; the event in flight is the one just
      before them, or an older one while the buffer is at its bound. */
  ghost predicate Window(b: seq<Item>, bound: nat, flying: Option<nat>, h: Evts) {
    && |b| <= bound
    && 0 <= Base(b, h)
    && b == h.log[Base(b, h)..]
    && (flying.Some? ==> flying.value < Base(b, h) && (flying.value == Base(b, h) - 1 || |b| == bound))
  }

  /** Every push below the window has exactly one fate: replayed, in push order; dropped,
      after at least `bound` later pushes; or in flight. */
  ghost predicate Fates(b: seq<Item>, bound: nat, flying: Option<nat>, h: Evts) {
    && (forall j, k :: 0 <= j < k < |h.replayed| ==> h.replayed[j] < h.replayed[k])
    && (forall j :: 0 <= j < |h.replayed| ==>
          h.replayed[j] < (if flying.Some? then flying.value else Base(b, h)) && h.replayed[j] !in h.dropped)
    && (forall k :: k in h.dropped ==> k < Base(b, h) && flying != Some(k) && k + bound < |h.log|)
    && (forall k: nat :: k < Base(b, h) ==> k in h.replayed || k in h.dropped || flying == Some(k))
    && |h.log| == |h.replayed| + |h.dropped| + |b| + (if flying.Some? then 1 else 0)
  }

  ghost predicate Tracked(p: PolicyState, flying: Option<nat>, h: Evts) {
    && Window(p.evtBuffer, p.evtBufferMax, flying, h)
    && Fates(p.evtBuffer, p.evtBufferMax, flying, h)
  }

  lemma PushKeeps(p: PolicyState, flying: Option<nat>, h: Evts, item: Item)
    requires Tracked(p, flying, h)
    ensures Tracked(Push(p, item).0, flying, Logged(p, h, item))
  {
    var q, g := Push(p, item).0, Logged(p, h, item);
    if p.evtBufferMax > 0 {
      assert q.evtBuffer == g.log[Base(q.evtBuffer, g)..];
      assert Base(p.evtBuffer, h) !in h.dropped;
    }
  }

  lemma PopKeeps(p: PolicyState, h: Evts)
    requires Tracked(p, None, h) && p.evtBuffer != []
    ensures Pop(p).1 == Some(h.log[Base(p.evtBuffer, h)])
    ensures Tracked(Pop(p).0, Some(Base(p.evtBuffer, h)), h)
  {
  }

  lemma ReplayKeeps(p: PolicyState, i: nat, h: Evts)
    requires Tracked(p, Some(i), h)
    ensures Tracked(p, None, h.(replayed := h.replayed + [i]))
  {
    var r := h.replayed + [i];
    assert forall k :: k in h.replayed ==> k in r;
    assert r[|h.replayed|] == i;
  }

  /** A requeue that succeeds restores the exact predecessor of the window; one that is
      refused drops an event that at least `evtBufferMax` later pushes followed. */
  lemma RequeueKeeps(p: PolicyState, i: nat, h: Evts)
    requires Tracked(p, Some(i), h)
    ensures var (q, kept) := Requeue(p, h.log[i]);
            var g := if kept then h else h.(dropped := h.dropped + {i});
            && (kept ==> i == Base(p.evtBuffer, h) - 1 && q.evtBuffer == h.log[i..])
            && Tracked(q, None, g)
  {
    if |p.evtBuffer| < p.evtBufferMax {
      assert [h.log[i]] + h.log[i + 1..] == h.log[i..];
    }
  }

  // ---- over every run ----

  /** Buffer, counters and history agree. */
  ghost predicate EvtCore(p: PolicyState, k: Counters, flying: Option<nat>, h: Evts) {
    && Policy.WellFormed(p)
    && Tracked(p, flying, h)
    && k.evtBuffered == |h.log|
    && k.evtReplayed == |h.replayed|
    && k.evtBufferDropped == |h.dropped|
  }

  ghost predicate EvtInv(cfg: Config, s: GovState) {
    && s.policy.evtBufferMax == Configured(cfg.uplink).evtBufferMax
    && |s.pumps| == |cfg.classes|
    && EvtCore(s.policy, s.counters, InFlight(s), s.evts)
    && (s.pc.Flying? ==> s.pc.item == s.evts.log[s.pc.index])
  }

  lemma PushKeepsCore(p: PolicyState, k: Counters, flying: Option<nat>, h: Evts, c: UnsClass, item: Item)
    requires EvtCore(p, k, flying, h)
    ensures EvtCore(Push(p, item).0, RecordPush(k, Push(p, item).1, c), flying, Logged(p, h, item))
  {
    PushKeeps(p, flying, h, item);
    assert Base(p.evtBuffer, h) !in h.dropped;
  }

  /** Admission itself never touches the buffer; its scope pushes exactly on a Buffer verdict. */
  lemma AdmitScopeOnBuffer(p: PolicyState, k: Counters, c: UnsClass, item: Item, connected: bool, now: real)
    requires Policy.WellFormed(p)
    ensures var (q, verdict) := Admission(p, c, connected, now);
            var scope := AdmitScope(p, k, c, item, connected, now);
            && q.evtBuffer == p.evtBuffer && q.evtBufferMax == p.evtBufferMax && Policy.WellFormed(q)
            && (verdict == Buffer ==>
                  scope.policy == Push(q, item).0 && scope.counters == RecordPush(k, Push(q, item).1, c))
            && (verdict != Buffer ==>
                  && scope.policy == q
                  && scope.counters.evtBuffered == k.evtBuffered
                  && scope.counters.evtReplayed == k.evtReplayed
                  && scope.counters.evtBufferDropped == k.evtBufferDropped)
  {
  }

  lemma SameBuffer(p: PolicyState, q: PolicyState, k: Counters, flying: Option<nat>, h: Evts, item: Item)
    requires EvtCore(p, k, flying, h)
    requires q.evtBuffer == p.evtBuffer && q.evtBufferMax == p.evtBufferMax && Policy.WellFormed(q)
    ensures EvtCore(q, k, flying, h) && Logged(q, h, item) == Logged(p, h, item)
    ensures Push(q, item).0.evtBufferMax == p.evtBufferMax
  {
  }

  lemma AdmitKeepsCore(p: PolicyState, k: Counters, flying: Option<nat>, h: Evts, c: UnsClass, item: Item,
                       connected: bool, now: real)
    requires EvtCore(p, k, flying, h)
    ensures var scope := AdmitScope(p, k, c, item, connected, now);
            var g := if Admission(p, c, connected, now).1 == Buffer then Logged(p, h, item) else h;
            EvtCore(scope.policy, scope.counters, flying, g) && scope.policy.evtBufferMax == p.evtBufferMax
  {
    var (q, verdict) := Admission(p, c, connected, now);
    AdmitScopeOnBuffer(p, k, c, item, connected, now);
    SameBuffer(p, q, k, flying, h, item);
    if verdict == Buffer {
      PushKeepsCore(q, k, flying, h, c, item);
    }
  }

  lemma AdmitKeepsEvt(cfg: Config, s: GovState, i: nat, connected: bool, now: real)
    requires EvtInv(cfg, s) && Possible(cfg, s, Admit(i, connected, now))
    ensures EvtInv(cfg, OnAdmit(cfg, s, i, connected, now))
  {
    AdmitKeepsCore(s.policy, s.counters, InFlight(s), s.evts, cfg.classes[i], s.pumps[i].item, connected, now);
    LogGrows(s.policy, s.evts, s.pumps[i].item);
  }

  lemma LogGrows(p: PolicyState, h: Evts, item: Item)
    ensures h.log == Logged(p, h, item).log[..|h.log|]
    ensures h.replayed == Logged(p, h, item).replayed
    ensures h.dropped <= Logged(p, h, item).dropped
  {
  }

  lemma PublishKeepsEvt(cfg: Config, s: GovState, i: nat, ok: bool)
    requires EvtInv(cfg, s) && Possible(cfg, s, Publish(i, ok))
    ensures EvtInv(cfg, OnPublish(cfg, s, i, ok))
  {
    PushKeepsCore(s.policy, s.counters, InFlight(s), s.evts, cfg.classes[i], s.pumps[i].item);
    LogGrows(s.policy, s.evts, s.pumps[i].item);
  }

  lemma ReplayStepKeepsEvt(cfg: Config, s: GovState, ok: bool)
    requires EvtInv(cfg, s) && s.pc.Flying?
    ensures EvtInv(cfg, OnPublishReplay(s, ok))
  {
    if ok {
      ReplayKeeps(s.policy, s.pc.index, s.evts);
    } else {
      RequeueKeeps(s.policy, s.pc.index, s.evts);
    }
  }

  /** A step that touches neither the buffer nor its history, nor what is in flight. */
  lemma QuietKeepsEvt(cfg: Config, s: GovState, t: GovState)
    requires EvtInv(cfg, s) && t.policy == s.policy && t.evts == s.evts && |t.pumps| == |s.pumps|
    requires t.counters.evtBuffered == s.counters.evtBuffered && t.counters.evtReplayed == s.counters.evtReplayed
    requires t.counters.evtBufferDropped == s.counters.evtBufferDropped
    requires t.pc == s.pc || (!s.pc.Flying? && !t.pc.Flying?)
    ensures EvtInv(cfg, t)
  {
  }

  lemma TakeKeepsEvt(cfg: Config, s: GovState, connected: bool)
    requires EvtInv(cfg, s) && s.pc.Draining?
    ensures EvtInv(cfg, OnTakeOldest(s, connected))
  {
    if s.policy.evtBuffer != [] { PopKeeps(s.policy, s.evts); }
  }

  lemma EvtStep(cfg: Config, s: GovState, a: Action)
    requires EvtInv(cfg, s) && Possible(cfg, s, a)
    ensures EvtInv(cfg, Step(cfg, s, a))
  {
    match a
    case Receive(i, topic, payload) => QuietKeepsEvt(cfg, s, OnReceive(cfg, s, i, topic, payload));
    case Admit(i, connected, now) => AdmitKeepsEvt(cfg, s, i, connected, now);
    case Publish(i, ok) => PublishKeepsEvt(cfg, s, i, ok);
    case Tick(connected) => QuietKeepsEvt(cfg, s, OnTick(s, connected));
    case Announce => QuietKeepsEvt(cfg, s, OnAnnounce(s));
    case CheckPending => QuietKeepsEvt(cfg, s, Step(cfg, s, a));
    case TakeOldest(connected) => TakeKeepsEvt(cfg, s, connected);
    case PublishReplay(ok) => ReplayStepKeepsEvt(cfg, s, ok);
  }

  /** The replay window, the fates and the event counters hold in every reachable state. */
  lemma {:induction false} EvtInvariant(cfg: Config, actions: seq<Action>)
    requires Run(cfg, actions).Some?
    ensures EvtInv(cfg, Run(cfg, actions).value)
    decreases |actions|
  {
    if actions != [] {
      var front := actions[..|actions| - 1];
      EvtInvariant(cfg, front);
      EvtStep(cfg, Run(cfg, front).value, actions[|actions| - 1]);
    }
  }

  /** Conservation, on the counters a reader can see. */
  lemma EvtConservation(cfg: Config, actions: seq<Action>)
    requires Run(cfg, actions).Some?
    ensures var s := Run(cfg, actions).value;
            s.counters.evtBuffered ==
              s.counters.evtReplayed + s.counters.evtBufferDropped + |s.policy.evtBuffer| +
              (if s.pc.Flying? then 1 else 0)
  {
    EvtInvariant(cfg, actions);
  }

  /** Loss bound: a run with no more stored pushes than the buffer holds loses none, and
      each loss was followed by at least that many later pushes. */
  lemma EvtLossBound(cfg: Config, actions: seq<Action>)
    requires Run(cfg, actions).Some?
    ensures var s := Run(cfg, actions).value;
            var bound := Configured(cfg.uplink).evtBufferMax;
            && (s.counters.evtBuffered <= bound ==> s.counters.evtBufferDropped == 0)
            && (forall k :: k in s.evts.dropped ==> |s.evts.log| - 1 - k >= bound)
  {
    EvtInvariant(cfg, actions);
    var s := Run(cfg, actions).value;
    if |s.evts.dropped| > 0 {
      var k :| k in s.evts.dropped;
    }
  }

  // ---- order at the site broker ----

  predicate Settled(h: Evts, k: nat) { k in h.replayed || k in h.dropped }

  /** At its admission everything pushed before was settled, but for the event in flight. */
  ghost predicate AdmittedBehind(h: Evts, seen: nat, flying: Option<nat>) {
    seen <= |h.log| && forall k: nat :: k < seen ==> Settled(h, k) || flying == Some(k)
  }

  ghost predicate PumpsBehind(cfg: Config, s: GovState) {
    forall i :: 0 <= i < |s.pumps| == |cfg.classes| && cfg.classes[i] == Evt && s.pumps[i].Publishing? ==>
      AdmittedBehind(s.evts, s.pumps[i].seen, s.pumps[i].flying)
  }

  ghost predicate SiteOrdered(h: Evts, site: seq<Landing>) {
    && (forall p :: 0 <= p < |site| && site[p].Live? && site[p].cls == Evt ==>
          AdmittedBehind(h, site[p].seen, site[p].flying))
    && (forall q :: 0 <= q < |site| && site[q].Replay? ==>
          && site[q].index in h.replayed
          && site[q].index < |h.log|
          && site[q].item == h.log[site[q].index])
    && (forall p, q :: 0 <= p < q < |site| && site[p].Replay? && site[q].Replay? ==>
          site[p].index < site[q].index)
    && (forall p, q :: 0 <= p < q < |site| && site[p].Live? && site[p].cls == Evt && site[q].Replay? ==>
          site[q].index >= site[p].seen || site[p].flying == Some(site[q].index))
  }

  /** A landing that fits behind those before it. */
  lemma LandingOrdered(h: Evts, site: seq<Landing>, x: Landing)
    requires SiteOrdered(h, site)
    requires x.Live? && x.cls == Evt ==> AdmittedBehind(h, x.seen, x.flying)
    requires x.Replay? ==>
               && x.index in h.replayed && x.index < |h.log| && x.item == h.log[x.index]
               && (forall p :: 0 <= p < |site| && site[p].Replay? ==> site[p].index < x.index)
               && (forall p :: 0 <= p < |site| && site[p].Live? && site[p].cls == Evt ==>
                     x.index >= site[p].seen || site[p].flying == Some(x.index))
    ensures SiteOrdered(h, site + [x])
  {
    var longer := site + [x];
    assert forall p :: 0 <= p < |site| ==> longer[p] == site[p];
  }

  ghost predicate OrderInv(cfg: Config, s: GovState) {
    s.policy.evtBufferMax > 0 ==> PumpsBehind(cfg, s) && SiteOrdered(s.evts, s.site)
  }

  /** The history only grows, so what was settled stays settled. */
  ghost predicate Extends(h: Evts, g: Evts) {
    && |h.log| <= |g.log| && h.log == g.log[..|h.log|]
    && h.dropped <= g.dropped
    && |h.replayed| <= |g.replayed|
    && h.replayed == g.replayed[..|h.replayed|]
  }

  lemma BehindExtends(h: Evts, g: Evts, seen: nat, flying: Option<nat>)
    requires AdmittedBehind(h, seen, flying) && Extends(h, g)
    ensures AdmittedBehind(g, seen, flying)
  {
    forall k: nat | k < seen ensures Settled(g, k) || flying == Some(k) {
      assert Settled(h, k) || flying == Some(k);
    }
  }

  lemma OrderExtends(cfg: Config, s: GovState, t: GovState)
    requires PumpsBehind(cfg, s) && SiteOrdered(s.evts, s.site) && Extends(s.evts, t.evts)
    requires |t.pumps| == |s.pumps|
    requires forall i :: 0 <= i < |t.pumps| ==> t.pumps[i] == s.pumps[i] || !t.pumps[i].Publishing?
    ensures PumpsBehind(cfg, t) && SiteOrdered(t.evts, s.site)
  {
    forall i | 0 <= i < |t.pumps| == |cfg.classes| && cfg.classes[i] == Evt && t.pumps[i].Publishing?
      ensures AdmittedBehind(t.evts, t.pumps[i].seen, t.pumps[i].flying)
    {
      BehindExtends(s.evts, t.evts, s.pumps[i].seen, s.pumps[i].flying);
    }
    forall p | 0 <= p < |s.site| && s.site[p].Live? && s.site[p].cls == Evt
      ensures AdmittedBehind(t.evts, s.site[p].seen, s.site[p].flying)
    {
      BehindExtends(s.evts, t.evts, s.site[p].seen, s.site[p].flying);
    }
  }

  /** A live `evt` let through saw an empty buffer. */
  lemma ForwardSeesEmptyBuffer(cfg: Config, s: GovState, c: UnsClass, connected: bool, now: real)
    requires EvtInv(cfg, s) && c == Evt
    requires Admission(s.policy, c, connected, now).1 == UplinkVerdict.Forward
    ensures s.policy.evtBuffer == []
    ensures AdmittedBehind(s.evts, |s.evts.log|, InFlight(s))
  {
    assert Base(s.policy.evtBuffer, s.evts) == |s.evts.log|;
  }

  lemma AdmitKeepsOrder(cfg: Config, s: GovState, i: nat, connected: bool, now: real)
    requires EvtInv(cfg, s) && PumpsBehind(cfg, s) && SiteOrdered(s.evts, s.site) && s.policy.evtBufferMax > 0
    requires Possible(cfg, s, Admit(i, connected, now))
    ensures PumpsBehind(cfg, OnAdmit(cfg, s, i, connected, now))
    ensures SiteOrdered(OnAdmit(cfg, s, i, connected, now).evts, s.site)
  {
    var t := OnAdmit(cfg, s, i, connected, now);
    OrderExtends(cfg, s, t.(pumps := s.pumps));
    if t.pumps[i].Publishing? && cfg.classes[i] == Evt {
      ForwardSeesEmptyBuffer(cfg, s, cfg.classes[i], connected, now);
    }
  }

  lemma ReplayKeepsOrder(cfg: Config, s: GovState)
    requires EvtInv(cfg, s) && PumpsBehind(cfg, s) && SiteOrdered(s.evts, s.site)
    requires s.pc.Flying?
    ensures PumpsBehind(cfg, OnPublishReplay(s, true))
    ensures SiteOrdered(OnPublishReplay(s, true).evts, OnPublishReplay(s, true).site)
  {
    var t := OnPublishReplay(s, true);
    var index := s.pc.index;
    OrderExtends(cfg, s, t);
    assert t.evts.replayed[|s.evts.replayed|] == index;
    assert !Settled(s.evts, index);
    forall p | 0 <= p < |s.site| && s.site[p].Live? && s.site[p].cls == Evt
      ensures index >= s.site[p].seen || s.site[p].flying == Some(index)
    {
      assert AdmittedBehind(s.evts, s.site[p].seen, s.site[p].flying);
    }
    LandingOrdered(t.evts, s.site, t.site[|s.site|]);
  }

  lemma PublishKeepsOrder(cfg: Config, s: GovState, i: nat, ok: bool)
    requires EvtInv(cfg, s) && PumpsBehind(cfg, s) && SiteOrdered(s.evts, s.site)
    requires Possible(cfg, s, Publish(i, ok))
    ensures PumpsBehind(cfg, OnPublish(cfg, s, i, ok))
    ensures SiteOrdered(OnPublish(cfg, s, i, ok).evts, OnPublish(cfg, s, i, ok).site)
  {
    var t := OnPublish(cfg, s, i, ok);
    OrderExtends(cfg, s, t);
    if ok { LandingOrdered(t.evts, s.site, t.site[|s.site|]); }
  }

  /** Watcher steps that publish nothing leave pumps, history and site alone. */
  lemma QuietKeepsOrder(cfg: Config, s: GovState, t: GovState)
    requires OrderInv(cfg, s) && t.policy.evtBufferMax == s.policy.evtBufferMax
    requires t.pumps == s.pumps && t.evts == s.evts && t.site == s.site
    ensures OrderInv(cfg, t)
  {
    if s.policy.evtBufferMax > 0 { OrderExtends(cfg, s, t); }
  }

  lemma ReceiveKeepsOrder(cfg: Config, s: GovState, i: nat, topic: string, payload: Bytes)
    requires OrderInv(cfg, s) && Possible(cfg, s, Receive(i, topic, payload))
    ensures OrderInv(cfg, OnReceive(cfg, s, i, topic, payload))
  {
    if s.policy.evtBufferMax > 0 { OrderExtends(cfg, s, OnReceive(cfg, s, i, topic, payload)); }
  }

  lemma PublishReplayKeepsOrder(cfg: Config, s: GovState, ok: bool)
    requires EvtInv(cfg, s) && PumpsBehind(cfg, s) && SiteOrdered(s.evts, s.site) && s.pc.Flying?
    ensures PumpsBehind(cfg, OnPublishReplay(s, ok))
    ensures SiteOrdered(OnPublishReplay(s, ok).evts, OnPublishReplay(s, ok).site)
  {
    if ok { ReplayKeepsOrder(cfg, s); } else { OrderExtends(cfg, s, OnPublishReplay(s, ok)); }
  }

  lemma OrderStep(cfg: Config, s: GovState, a: Action)
    requires EvtInv(cfg, s) && OrderInv(cfg, s) && Possible(cfg, s, a)
    ensures OrderInv(cfg, Step(cfg, s, a))
  {
    match a
    case Receive(i, topic, payload) => ReceiveKeepsOrder(cfg, s, i, topic, payload);
    case Admit(i, connected, now) =>
      AdmitKeepsEvt(cfg, s, i, connected, now);
      if s.policy.evtBufferMax > 0 { AdmitKeepsOrder(cfg, s, i, connected, now); }
    case Publish(i, ok) =>
      PublishKeepsEvt(cfg, s, i, ok);
      if s.policy.evtBufferMax > 0 { PublishKeepsOrder(cfg, s, i, ok); }
    case PublishReplay(ok) =>
      ReplayStepKeepsEvt(cfg, s, ok);
      if s.policy.evtBufferMax > 0 { PublishReplayKeepsOrder(cfg, s, ok); }
    case Tick(connected) => QuietKeepsOrder(cfg, s, OnTick(s, connected));
    case Announce => QuietKeepsOrder(cfg, s, OnAnnounce(s));
    case CheckPending => QuietKeepsOrder(cfg, s, Step(cfg, s, a));
    case TakeOldest(connected) => QuietKeepsOrder(cfg, s, OnTakeOldest(s, connected));
  }

  lemma {:induction false} OrderInvariant(cfg: Config, actions: seq<Action>)
    requires Run(cfg, actions).Some?
    ensures OrderInv(cfg, Run(cfg, actions).value)
    decreases |actions|
  {
    if actions != [] {
      var front := actions[..|actions| - 1];
      EvtInvariant(cfg, front);
      OrderInvariant(cfg, front);
      OrderStep(cfg, Run(cfg, front).value, actions[|actions| - 1]);
    }
  }

  /** Bounded overtaking, by push: at the site broker replays land in push order, each at most
      once, and an event lands as a replay after a live one admitted since its push only if
      it was the one event the watcher held in flight at that admission. */
  lemma OvertakesOnlyTheEventInFlight(cfg: Config, actions: seq<Action>, p: nat, q: nat)
    requires Run(cfg, actions).Some? && Configured(cfg.uplink).evtBufferMax > 0
    requires var site := Run(cfg, actions).value.site; p < q < |site| && site[q].Replay?
    ensures var site := Run(cfg, actions).value.site;
            && site[q].index < |Run(cfg, actions).value.evts.log|
            && site[q].item == Run(cfg, actions).value.evts.log[site[q].index]
            && (site[p].Replay? ==> site[p].index < site[q].index)
            && (site[p].Live? && site[p].cls == Evt && site[q].index < site[p].seen ==>
                  site[p].flying == Some(site[q].index))
  {
    EvtInvariant(cfg, actions);
    OrderInvariant(cfg, actions);
  }

  /** When a live `evt` goes through, every event pushed before it is settled if and only if
      the watcher holds nothing in flight. Events still on a pump have not been pushed. */
  lemma StrictOrderExactly(cfg: Config, actions: seq<Action>, connected: bool, now: real)
    requires Run(cfg, actions).Some? && Configured(cfg.uplink).evtBufferMax > 0
    requires Admission(Run(cfg, actions).value.policy, Evt, connected, now).1 == UplinkVerdict.Forward
    ensures var s := Run(cfg, actions).value;
            !s.pc.Flying? <==> forall k: nat :: k < |s.evts.log| ==> Settled(s.evts, k)
  {
    EvtInvariant(cfg, actions);
    var s := Run(cfg, actions).value;
    ForwardSeesEmptyBuffer(cfg, s, Evt, connected, now);
    if s.pc.Flying? {
      assert !Settled(s.evts, s.pc.index);
    }
  }
}

/** Erasure over whole runs of pumps and watcher: a run from which messages dropped at
    admission are removed, reception and all, is a run with the same other verdicts. */
module UplinkErasure {
  import opened Topics
  import opened Messages
  import opened Relay
  import opened Policy
  import opened PolicyRuns
  import opened Governor
  import opened UplinkRuns

  predicate DropsAtAdmission(v: UplinkVerdict) { v in {DropDisabled, DropDisconnected, DropRateCapped} }

  /** The pumps whose message in hand is one being removed, after one more action. */
  function HandsAfter(cfg: Config, hands: set<nat>, a: Action, kept: bool): set<nat> {
    if kept then hands
    else match a
      case Receive(i, topic, payload) =>
        if Decide(cfg.engine, cfg.codec, Uplink, topic, payload).Forward? then hands + {i} else hands
      case Admit(i, _, _) => hands - {i}
      case _ => hands
  }

  function Hands(cfg: Config, actions: seq<Action>, keep: seq<bool>): set<nat>
    requires |keep| == |actions|
    decreases |actions|
  {
    if actions == [] then {}
    else
      var n := |actions| - 1;
      HandsAfter(cfg, Hands(cfg, actions[..n], keep[..n]), actions[n], keep[n])
  }

  /** An action may be removed if it receives a message, or admits a removed one and drops it;
      and the admission of a removed message is removed with it. */
  predicate MayTreat(cfg: Config, s: GovState, hands: set<nat>, a: Action, kept: bool)
    requires Possible(cfg, s, a)
  {
    match a
    case Receive(_, _, _) => true
    case Admit(i, connected, now) =>
      if kept then i !in hands
      else i in hands && DropsAtAdmission(Admission(s.policy, cfg.classes[i], connected, now).1)
    case _ => kept
  }

  predicate Removable(cfg: Config, actions: seq<Action>, keep: seq<bool>)
    requires |keep| == |actions|
    decreases |actions|
  {
    actions == [] ||
    var n := |actions| - 1;
    var before := Run(cfg, actions[..n]);
    && Removable(cfg, actions[..n], keep[..n])
    && before.Some? && Possible(cfg, before.value, actions[n])
    && MayTreat(cfg, before.value, Hands(cfg, actions[..n], keep[..n]), actions[n], keep[n])
  }

  /** The clock as of the last admission, and its monotony. */
  function ClockOf(start: real, actions: seq<Action>): real
    decreases |actions|
  {
    if actions == [] then start
    else
      var a := actions[|actions| - 1];
      if a.Admit? then a.now else ClockOf(start, actions[..|actions| - 1])
  }

  predicate ClockMonotone(start: real, actions: seq<Action>)
    decreases |actions|
  {
    actions == [] ||
    var front := actions[..|actions| - 1];
    && ClockMonotone(start, front)
    && ClockOf(start, front) <= ClockOf(start, actions)
  }

  /** What a removal cannot touch. */
  predicate SameCounts(k: Counters, m: Counters) {
    && k.uplinked == m.uplinked && k.evtBuffered == m.evtBuffered
    && k.evtReplayed == m.evtReplayed && k.evtBufferDropped == m.evtBufferDropped
  }

  /** The run with removals is where the full run is, but for the messages removed. */
  ghost predicate Shadows(cfg: Config, s: GovState, t: GovState, hands: set<nat>, clock: real) {
    && Policy.WellFormed(s.policy) && Policy.WellFormed(t.policy) && Similar(s.policy, t.policy, clock)
    && |s.pumps| == |t.pumps| == |cfg.classes|
    && (forall i :: 0 <= i < |s.pumps| ==>
          if i in hands then s.pumps[i].Ready? && t.pumps[i].Idle? else t.pumps[i] == s.pumps[i])
    && t.pc == s.pc && t.wasConnected == s.wasConnected && t.events == s.events
    && t.evts == s.evts && t.line == s.line && t.site == s.site
    && SameCounts(s.counters, t.counters)
  }

  lemma ShadowsPublish(cfg: Config, s: GovState, t: GovState, hands: set<nat>, clock: real)
    requires Shadows(cfg, s, t, hands, clock)
    ensures PublishingNow(cfg, t) == PublishingNow(cfg, s)
  {
    var a, b := PublishingNow(cfg, s), PublishingNow(cfg, t);
    forall k ensures k in a <==> k in b {
      if k in a {
        var j :| 0 <= j < |s.pumps| && cfg.classes[j] == Evt && s.pumps[j].Publishing? && s.pumps[j].order == k;
        assert t.pumps[j] == s.pumps[j];
      }
      if k in b {
        var j :| 0 <= j < |t.pumps| && cfg.classes[j] == Evt && t.pumps[j].Publishing? && t.pumps[j].order == k;
        assert t.pumps[j] == s.pumps[j];
      }
    }
  }

  // ---- a kept action ----

  lemma KeptIsPossible(cfg: Config, s: GovState, t: GovState, hands: set<nat>, clock: real, a: Action)
    requires Shadows(cfg, s, t, hands, clock) && Possible(cfg, s, a) && (a.Admit? ==> a.pump !in hands)
    ensures Possible(cfg, t, a) && OpsOf(cfg, t, a) == OpsOf(cfg, s, a)
  {
  }

  /** Its operation on the policy has the same outcome. */
  lemma KeptPolicy(cfg: Config, s: GovState, t: GovState, clock: real, a: Action)
    requires Policy.WellFormed(s.policy) && Policy.WellFormed(t.policy) && Similar(s.policy, t.policy, clock)
    requires Possible(cfg, s, a) && Possible(cfg, t, a) && OpsOf(cfg, t, a) == OpsOf(cfg, s, a)
    requires a.Admit? ==> clock <= a.now
    ensures Policy.WellFormed(Step(cfg, s, a).policy) && Policy.WellFormed(Step(cfg, t, a).policy)
    ensures Similar(Step(cfg, s, a).policy, Step(cfg, t, a).policy, if a.Admit? then a.now else clock)
  {
    StepPerforms(cfg, s, a);
    StepPerforms(cfg, t, a);
    var ops := OpsOf(cfg, s, a);
    if ops != [] { PerformSimilar(s.policy, t.policy, clock, ops[0]); }
  }

  lemma SameScopes(p: PolicyState, q: PolicyState, k: Counters, m: Counters, c: UnsClass, item: Item, connected: bool,
                   now: real)
    requires Policy.WellFormed(p) && Policy.WellFormed(q) && Similar(p, q, now) && SameCounts(k, m)
    ensures Admission(p, c, connected, now).1 == Admission(q, c, connected, now).1
    ensures var x, y := AdmitScope(p, k, c, item, connected, now), AdmitScope(q, m, c, item, connected, now);
            x.forward == y.forward && SameCounts(x.counters, y.counters)
    ensures Push(p, item).1 == Push(q, item).1
  {
    AdmissionSimilar(p, q, c, connected, now);
  }

  lemma KeptAdmit(cfg: Config, s: GovState, t: GovState, hands: set<nat>, clock: real, i: nat, connected: bool,
                  now: real)
    requires Shadows(cfg, s, t, hands, clock) && Possible(cfg, s, Admit(i, connected, now)) && i !in hands
    requires clock <= now
    ensures Possible(cfg, t, Admit(i, connected, now))
    ensures Shadows(cfg, OnAdmit(cfg, s, i, connected, now), OnAdmit(cfg, t, i, connected, now), hands, now)
  {
    KeptIsPossible(cfg, s, t, hands, clock, Admit(i, connected, now));
    KeptPolicy(cfg, s, t, clock, Admit(i, connected, now));
    SimilarStatesLater(s.policy, t.policy, clock, now);
    SameScopes(s.policy, t.policy, s.counters, t.counters, cfg.classes[i], s.pumps[i].item, connected, now);
    ShadowsPublish(cfg, s, t, hands, clock);
    assert t.pumps[i] == s.pumps[i];
  }

  lemma KeptReceive(cfg: Config, s: GovState, t: GovState, hands: set<nat>, clock: real, i: nat, topic: string,
                    payload: Bytes)
    requires Shadows(cfg, s, t, hands, clock) && Possible(cfg, s, Receive(i, topic, payload))
    ensures Possible(cfg, t, Receive(i, topic, payload))
    ensures Shadows(cfg, OnReceive(cfg, s, i, topic, payload), OnReceive(cfg, t, i, topic, payload), hands, clock)
  {
  }

  lemma KeptPublish(cfg: Config, s: GovState, t: GovState, hands: set<nat>, clock: real, i: nat, ok: bool)
    requires Shadows(cfg, s, t, hands, clock) && Possible(cfg, s, Publish(i, ok))
    ensures Possible(cfg, t, Publish(i, ok))
    ensures Shadows(cfg, OnPublish(cfg, s, i, ok), OnPublish(cfg, t, i, ok), hands, clock)
  {
    KeptIsPossible(cfg, s, t, hands, clock, Publish(i, ok));
    KeptPolicy(cfg, s, t, clock, Publish(i, ok));
    assert t.pumps[i] == s.pumps[i];
  }

  lemma KeptTake(cfg: Config, s: GovState, t: GovState, hands: set<nat>, clock: real, connected: bool)
    requires Shadows(cfg, s, t, hands, clock) && s.pc.Draining?
    ensures Shadows(cfg, OnTakeOldest(s, connected), OnTakeOldest(t, connected), hands, clock)
  {
    KeptPolicy(cfg, s, t, clock, TakeOldest(connected));
  }

  lemma KeptReplay(cfg: Config, s: GovState, t: GovState, hands: set<nat>, clock: real, ok: bool)
    requires Shadows(cfg, s, t, hands, clock) && s.pc.Flying?
    ensures Shadows(cfg, OnPublishReplay(s, ok), OnPublishReplay(t, ok), hands, clock)
  {
    KeptPolicy(cfg, s, t, clock, PublishReplay(ok));
  }

  lemma KeptTick(cfg: Config, s: GovState, t: GovState, hands: set<nat>, clock: real, connected: bool)
    requires Shadows(cfg, s, t, hands, clock) && s.pc.Sleeping?
    ensures Shadows(cfg, OnTick(s, connected), OnTick(t, connected), hands, clock)
  {
  }

  lemma KeptAnnounce(cfg: Config, s: GovState, t: GovState, hands: set<nat>, clock: real)
    requires Shadows(cfg, s, t, hands, clock) && s.pc.Broadcasting?
    ensures Shadows(cfg, OnAnnounce(s), OnAnnounce(t), hands, clock)
  {
  }

  lemma KeptStep(cfg: Config, s: GovState, t: GovState, hands: set<nat>, clock: real, a: Action)
    requires Shadows(cfg, s, t, hands, clock) && Possible(cfg, s, a)
    requires a.Admit? ==> a.pump !in hands && clock <= a.now
    ensures Possible(cfg, t, a)
    ensures Shadows(cfg, Step(cfg, s, a), Step(cfg, t, a), hands, if a.Admit? then a.now else clock)
  {
    match a
    case Receive(i, topic, payload) => KeptReceive(cfg, s, t, hands, clock, i, topic, payload);
    case Admit(i, connected, now) => KeptAdmit(cfg, s, t, hands, clock, i, connected, now);
    case Publish(i, ok) => KeptPublish(cfg, s, t, hands, clock, i, ok);
    case Tick(connected) => KeptTick(cfg, s, t, hands, clock, connected);
    case Announce => KeptAnnounce(cfg, s, t, hands, clock);
    case CheckPending =>
    case TakeOldest(connected) => KeptTake(cfg, s, t, hands, clock, connected);
    case PublishReplay(ok) => KeptReplay(cfg, s, t, hands, clock, ok);
  }

  // ---- a removed action ----

  lemma RemovedReceive(cfg: Config, s: GovState, t: GovState, hands: set<nat>, clock: real, i: nat, topic: string,
                       payload: Bytes)
    requires Shadows(cfg, s, t, hands, clock) && Possible(cfg, s, Receive(i, topic, payload))
    ensures Shadows(cfg, OnReceive(cfg, s, i, topic, payload), t,
                    HandsAfter(cfg, hands, Receive(i, topic, payload), false), clock)
  {
  }

  lemma RemovedAdmit(cfg: Config, s: GovState, t: GovState, hands: set<nat>, clock: real, i: nat, connected: bool,
                     now: real)
    requires Shadows(cfg, s, t, hands, clock) && Possible(cfg, s, Admit(i, connected, now)) && i in hands
    requires clock <= now
    requires DropsAtAdmission(Admission(s.policy, cfg.classes[i], connected, now).1)
    ensures Shadows(cfg, OnAdmit(cfg, s, i, connected, now), t, hands - {i}, now)
  {
    var op := Arrive(cfg.classes[i], connected, now, s.pumps[i].item);
    AdmitPerforms(cfg, s, i, connected, now);
    ArrivalIsAdmission(s.policy, s.counters, cfg.classes[i], s.pumps[i].item, connected, now);
    PerformSimilar(s.policy, t.policy, clock, op);
    AdmitScopePasses(s.policy, s.counters, cfg.classes[i], s.pumps[i].item, connected, now);
  }

  /** Removing the reception and admission of any messages dropped at admission leaves a run,
      and leaves it shadowing the full one. */
  lemma {:induction false} RemovalShadows(cfg: Config, start: real, actions: seq<Action>, keep: seq<bool>)
    requires |keep| == |actions| && Run(cfg, actions).Some?
    requires Removable(cfg, actions, keep) && ClockMonotone(start, actions)
    ensures Run(cfg, Keep(actions, keep)).Some?
    ensures Shadows(cfg, Run(cfg, actions).value, Run(cfg, Keep(actions, keep)).value,
                    Hands(cfg, actions, keep), ClockOf(start, actions))
    decreases |actions|
  {
    if actions == [] {
      ConfiguredIsSelfSimilar(cfg.uplink, start);
    } else {
      var n := |actions| - 1;
      var front, a, hands := actions[..n], actions[n], Hands(cfg, actions[..n], keep[..n]);
      RemovalShadows(cfg, start, front, keep[..n]);
      KeepLast(actions, keep);
      var s, shorter := Run(cfg, front).value, Keep(front, keep[..n]);
      var t, clock := Run(cfg, shorter).value, ClockOf(start, front);
      if keep[n] {
        KeptStep(cfg, s, t, hands, clock, a);
        assert (shorter + [a])[..|shorter|] == shorter;
      } else if a.Receive? {
        RemovedReceive(cfg, s, t, hands, clock, a.pump, a.topic, a.payload);
        assert shorter + [] == shorter;
      } else {
        RemovedAdmit(cfg, s, t, hands, clock, a.pump, a.connected, a.now);
        assert shorter + [] == shorter;
      }
    }
  }

  /** Erasure, over every run of pumps and watcher under a monotone clock: without the
      messages dropped at admission the same messages land, in the same order, the same
      events are pushed, replayed and dropped, and the policy gives every later message the
      verdict it would have given. */
  lemma DropsLeaveNoTrace(cfg: Config, start: real, actions: seq<Action>, keep: seq<bool>,
                          c: UnsClass, connected: bool, now: real)
    requires |keep| == |actions| && Run(cfg, actions).Some?
    requires Removable(cfg, actions, keep) && ClockMonotone(start, actions) && ClockOf(start, actions) <= now
    ensures Run(cfg, Keep(actions, keep)).Some?
    ensures var s, t := Run(cfg, actions).value, Run(cfg, Keep(actions, keep)).value;
            && t.site == s.site && t.evts == s.evts && t.line == s.line && t.events == s.events
            && t.policy.evtBuffer == s.policy.evtBuffer && t.counters.uplinked == s.counters.uplinked
            && Admission(t.policy, c, connected, now).1 == Admission(s.policy, c, connected, now).1
  {
    RemovalShadows(cfg, start, actions, keep);
    var s, t := Run(cfg, actions).value, Run(cfg, Keep(actions, keep)).value;
    SimilarStatesLater(s.policy, t.policy, ClockOf(start, actions), now);
    AdmissionSimilar(s.policy, t.policy, c, connected, now);
  }
}

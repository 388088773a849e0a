/** Runs of a bridge's own pumps in which one event overtakes another, for each of the two
    ways it can. */
module OvertakingRuns {
  import opened Wrappers
  import opened Topics
  import opened Messages
  import opened Relay
  import opened Policy
  import opened Governor

  /** The pumps are those of a constructed engine, one per filter. */
  ghost predicate EnginePumps(cfg: Config) {
    && ValidEngine(cfg.engine)
    && |cfg.classes| == |cfg.engine.uplinkFilters|
    && forall k :: 0 <= k < |cfg.classes| ==> cfg.classes[k] == cfg.engine.uplinkFilters[k].0
  }

  /** As shipped: `evt` on and uncapped, with its replay buffer on. */
  predicate EvtAsShipped(cfg: Config) {
    && Configured(cfg.uplink).evtBufferMax > 0
    && Configured(cfg.uplink).classes[2] == ClassState(true, None)
  }

  /** Every engine has two `evt` pumps, one per scope. */
  lemma TwoEvtPumps(cfg: Config)
    requires EnginePumps(cfg)
    ensures |cfg.classes| > 5 && cfg.classes[4] == cfg.classes[5] == Evt
    ensures cfg.engine.uplinkFilters[4].1 == UplinkFilter(Evt, true)
    ensures cfg.engine.uplinkFilters[5].1 == UplinkFilter(Evt, false)
  {
    assert RelayedClasses(cfg.engine.appEnabled)[2] == Evt;
  }

  lemma RunExtends(cfg: Config, actions: seq<Action>, a: Action)
    requires Run(cfg, actions).Some? && Possible(cfg, Run(cfg, actions).value, a)
    ensures Run(cfg, actions + [a]) == Some(Step(cfg, Run(cfg, actions).value, a))
  {
    assert (actions + [a])[..|actions|] == actions;
  }

  function AllIdle(cfg: Config): seq<Pump> { seq(|cfg.classes|, k => Idle) }

  /** The message a pump is told to forward. */
  function Relayed(cfg: Config, topic: string, payload: Bytes): Item
    requires Decide(cfg.engine, cfg.codec, Uplink, topic, payload).Forward?
  {
    Item(topic, Decide(cfg.engine, cfg.codec, Uplink, topic, payload).bytes)
  }

  /** What matters of a state here. */
  ghost predicate At(cfg: Config, s: GovState, buffer: seq<Item>, pumps: seq<Pump>, pc: WatcherPc, log: seq<Item>,
                     line: Line, site: seq<Landing>) {
    && s.policy == Configured(cfg.uplink).(evtBuffer := buffer)
    && s.pumps == pumps && s.pc == pc && s.evts == Evts(log, [], {}) && s.line == line && s.site == site
  }

  lemma Received(cfg: Config, actions: seq<Action>, i: nat, topic: string, payload: Bytes)
    requires Run(cfg, actions).Some? && Possible(cfg, Run(cfg, actions).value, Receive(i, topic, payload))
    requires Decide(cfg.engine, cfg.codec, Uplink, topic, payload).Forward?
    ensures Run(cfg, actions + [Receive(i, topic, payload)]).Some?
    ensures var s, t := Run(cfg, actions).value, Run(cfg, actions + [Receive(i, topic, payload)]).value;
            && t.policy == s.policy && t.pc == s.pc && t.evts == s.evts && t.line == s.line && t.site == s.site
            && t.pumps == s.pumps[i := Ready(Relayed(cfg, topic, payload))] && t.wasConnected == s.wasConnected
  {
    RunExtends(cfg, actions, Receive(i, topic, payload));
  }

  /** An `evt` admitted with the link up and the buffer empty goes out live. */
  lemma Forwarded(cfg: Config, actions: seq<Action>, i: nat)
    requires EvtAsShipped(cfg) && Run(cfg, actions).Some?
    requires var s := Run(cfg, actions).value;
             && i < |s.pumps| == |cfg.classes| && cfg.classes[i] == Evt && s.pumps[i].Ready?
             && s.policy == Configured(cfg.uplink)
    ensures Run(cfg, actions + [Admit(i, true, 0.0)]).Some?
    ensures var s, t := Run(cfg, actions).value, Run(cfg, actions + [Admit(i, true, 0.0)]).value;
            && t.policy == s.policy && t.pc == s.pc && t.evts == s.evts && t.site == s.site
            && t.wasConnected == s.wasConnected
            && t.pumps == s.pumps[i := Publishing(s.pumps[i].item, |s.evts.log|, InFlight(s), |s.line.births|)]
            && t.line == Joined(cfg, s, i, s.pumps[i].item, true)
  {
    var s := Run(cfg, actions).value;
    assert Admission(s.policy, Evt, true, 0.0) == (s.policy, UplinkVerdict.Forward);
    RunExtends(cfg, actions, Admit(i, true, 0.0));
  }

  /** An `evt` admitted with the link down and the buffer empty is buffered. */
  lemma Queued(cfg: Config, actions: seq<Action>, i: nat)
    requires EvtAsShipped(cfg) && Run(cfg, actions).Some?
    requires var s := Run(cfg, actions).value;
             && i < |s.pumps| == |cfg.classes| && cfg.classes[i] == Evt && s.pumps[i].Ready?
             && s.policy == Configured(cfg.uplink)
    ensures Run(cfg, actions + [Admit(i, false, 0.0)]).Some?
    ensures var s, t := Run(cfg, actions).value, Run(cfg, actions + [Admit(i, false, 0.0)]).value;
            var item := s.pumps[i].item;
            && t.policy == s.policy.(evtBuffer := [item]) && t.evts == s.evts.(log := s.evts.log + [item])
            && t.pumps == s.pumps[i := Idle] && t.pc == s.pc && t.site == s.site
            && t.line == Pushed(Joined(cfg, s, i, item, false), |s.line.births|, Stored(false))
  {
    var s := Run(cfg, actions).value;
    assert Admission(s.policy, Evt, false, 0.0) == (s.policy, Buffer);
    assert Push(s.policy, s.pumps[i].item) == (s.policy.(evtBuffer := [] + [s.pumps[i].item]), Stored(false));
    RunExtends(cfg, actions, Admit(i, false, 0.0));
  }

  /** With an event buffered and the watcher asleep, one tick with the link up brings it to
      the drain, broadcasting first if it had seen the link down. */
  lemma WokenUp(cfg: Config, actions: seq<Action>) returns (longer: seq<Action>)
    requires Run(cfg, actions).Some?
    requires var s := Run(cfg, actions).value; s.pc == Sleeping && s.policy.evtBuffer != []
    ensures Run(cfg, longer).Some?
    ensures var s, t := Run(cfg, actions).value, Run(cfg, longer).value;
            && t.pc == Draining && t.policy == s.policy && t.pumps == s.pumps && t.evts == s.evts
            && t.line == s.line && t.site == s.site
  {
    RunExtends(cfg, actions, Tick(true));
    longer := actions + [Tick(true)];
    if Run(cfg, actions).value.wasConnected {
      RunExtends(cfg, longer, CheckPending);
      longer := longer + [CheckPending];
    } else {
      RunExtends(cfg, longer, Announce);
      longer := longer + [Announce];
      RunExtends(cfg, longer, Announce);
      longer := longer + [Announce];
    }
  }

  /** A run that leaves one event buffered. */
  lemma Buffered(cfg: Config, i: nat, topic: string, payload: Bytes) returns (actions: seq<Action>)
    requires EvtAsShipped(cfg) && i < |cfg.classes| && cfg.classes[i] == Evt
    requires Decide(cfg.engine, cfg.codec, Uplink, topic, payload).Forward?
    ensures Run(cfg, actions).Some?
    ensures var a := Relayed(cfg, topic, payload);
            At(cfg, Run(cfg, actions).value, [a], AllIdle(cfg), Sleeping, [a],
               Line([Birth(i, a, false, None, {})], [InLog(0)], [0]), [])
  {
    var a := Relayed(cfg, topic, payload);
    Received(cfg, [], i, topic, payload);
    actions := [] + [Receive(i, topic, payload)];
    assert PublishingNow(cfg, Run(cfg, actions).value) == {};
    Queued(cfg, actions, i);
    actions := actions + [Admit(i, false, 0.0)];
    assert Run(cfg, actions).value.pumps == AllIdle(cfg);
  }

  /** The buffered event in the watcher's hands. */
  lemma InTheAir(cfg: Config, i: nat, topic: string, payload: Bytes) returns (actions: seq<Action>)
    requires EvtAsShipped(cfg) && i < |cfg.classes| && cfg.classes[i] == Evt
    requires Decide(cfg.engine, cfg.codec, Uplink, topic, payload).Forward?
    ensures Run(cfg, actions).Some?
    ensures var a := Relayed(cfg, topic, payload);
            At(cfg, Run(cfg, actions).value, [], AllIdle(cfg), Flying(a, 0), [a],
               Line([Birth(i, a, false, None, {})], [InLog(0)], [0]), [])
  {
    actions := Buffered(cfg, i, topic, payload);
    actions := WokenUp(cfg, actions);
    RunExtends(cfg, actions, TakeOldest(true));
    actions := actions + [TakeOldest(true)];
  }

  /** A newer event lands live meanwhile. */
  lemma LandsMeanwhile(cfg: Config, i: nat, topicA: string, payloadA: Bytes, topicB: string, payloadB: Bytes)
    returns (actions: seq<Action>)
    requires EvtAsShipped(cfg) && i < |cfg.classes| && cfg.classes[i] == Evt
    requires Decide(cfg.engine, cfg.codec, Uplink, topicA, payloadA).Forward?
    requires Decide(cfg.engine, cfg.codec, Uplink, topicB, payloadB).Forward?
    ensures Run(cfg, actions).Some?
    ensures var a, b, s := Relayed(cfg, topicA, payloadA), Relayed(cfg, topicB, payloadB), Run(cfg, actions).value;
            && s.pc == Flying(a, 0) && s.site == [Live(Evt, b, 1, Some(0), 1)]
            && |s.line.pushes| > 0 && s.line.pushes[0] == 0
  {
    actions := InTheAir(cfg, i, topicA, payloadA);
    Received(cfg, actions, i, topicB, payloadB);
    actions := actions + [Receive(i, topicB, payloadB)];
    assert Run(cfg, actions).value.policy == Configured(cfg.uplink);
    Forwarded(cfg, actions, i);
    actions := actions + [Admit(i, true, 0.0)];
    RunExtends(cfg, actions, Publish(i, true));
    actions := actions + [Publish(i, true)];
  }

  /** A live event overtakes the replay in flight: on any `evt` pump of any engine, for any
      two messages it forwards, the newer one can land before the buffered one. */
  lemma ReplayOvertaken(cfg: Config, i: nat, topicA: string, payloadA: Bytes, topicB: string, payloadB: Bytes)
    returns (actions: seq<Action>)
    requires EnginePumps(cfg) && EvtAsShipped(cfg) && i < |cfg.classes| && cfg.classes[i] == Evt
    requires Decide(cfg.engine, cfg.codec, Uplink, topicA, payloadA).Forward?
    requires Decide(cfg.engine, cfg.codec, Uplink, topicB, payloadB).Forward?
    ensures Run(cfg, actions).Some?
    ensures var a, b := Relayed(cfg, topicA, payloadA), Relayed(cfg, topicB, payloadB);
            Run(cfg, actions).value.site == [Live(Evt, b, 1, Some(0), 1), Replay(0, a, 0)]
  {
    actions := LandsMeanwhile(cfg, i, topicA, payloadA, topicB, payloadB);
    RunExtends(cfg, actions, PublishReplay(true));
    actions := actions + [PublishReplay(true)];
  }

  lemma OnePublishing(cfg: Config, i: nat, topic: string, payload: Bytes) returns (actions: seq<Action>)
    requires EvtAsShipped(cfg) && i < |cfg.classes| && cfg.classes[i] == Evt
    requires Decide(cfg.engine, cfg.codec, Uplink, topic, payload).Forward?
    ensures Run(cfg, actions).Some?
    ensures var a := Relayed(cfg, topic, payload);
            At(cfg, Run(cfg, actions).value, [], AllIdle(cfg)[i := Publishing(a, 0, None, 0)], Sleeping, [],
               Line([Birth(i, a, true, None, {})], [OnPump], []), [])
  {
    Received(cfg, [], i, topic, payload);
    actions := [] + [Receive(i, topic, payload)];
    assert PublishingNow(cfg, Run(cfg, actions).value) == {};
    Forwarded(cfg, actions, i);
    actions := actions + [Admit(i, true, 0.0)];
    assert Run(cfg, actions).value.pumps == AllIdle(cfg)[i := Publishing(Relayed(cfg, topic, payload), 0, None, 0)];
  }

  /** One event being published, the next in the hands of another pump. */
  lemma NextInHand(cfg: Config, i: nat, j: nat, topicA: string, payloadA: Bytes, topicB: string, payloadB: Bytes)
    returns (actions: seq<Action>)
    requires EvtAsShipped(cfg)
    requires i < |cfg.classes| && j < |cfg.classes| && i != j && cfg.classes[i] == cfg.classes[j] == Evt
    requires Decide(cfg.engine, cfg.codec, Uplink, topicA, payloadA).Forward?
    requires Decide(cfg.engine, cfg.codec, Uplink, topicB, payloadB).Forward?
    ensures Run(cfg, actions).Some?
    ensures var a, b, s := Relayed(cfg, topicA, payloadA), Relayed(cfg, topicB, payloadB), Run(cfg, actions).value;
            && At(cfg, s, [], AllIdle(cfg)[i := Publishing(a, 0, None, 0)][j := Ready(b)], Sleeping, [],
                  Line([Birth(i, a, true, None, {})], [OnPump], []), [])
            && PublishingNow(cfg, s) == {0}
  {
    actions := OnePublishing(cfg, i, topicA, payloadA);
    Received(cfg, actions, j, topicB, payloadB);
    actions := actions + [Receive(j, topicB, payloadB)];
    var s := Run(cfg, actions).value;
    assert PublishingNow(cfg, s) == {0} by {
      assert s.pumps[i].order == 0;
    }
  }

  /** Two events admitted live, in this order, on two pumps. */
  lemma BothPublishing(cfg: Config, i: nat, j: nat, topicA: string, payloadA: Bytes, topicB: string, payloadB: Bytes)
    returns (actions: seq<Action>)
    requires EvtAsShipped(cfg)
    requires i < |cfg.classes| && j < |cfg.classes| && i != j && cfg.classes[i] == cfg.classes[j] == Evt
    requires Decide(cfg.engine, cfg.codec, Uplink, topicA, payloadA).Forward?
    requires Decide(cfg.engine, cfg.codec, Uplink, topicB, payloadB).Forward?
    ensures Run(cfg, actions).Some?
    ensures var a, b := Relayed(cfg, topicA, payloadA), Relayed(cfg, topicB, payloadB);
            At(cfg, Run(cfg, actions).value, [],
               AllIdle(cfg)[i := Publishing(a, 0, None, 0)][j := Publishing(b, 0, None, 1)], Sleeping, [],
               Line([Birth(i, a, true, None, {}), Birth(j, b, true, None, {0})], [OnPump, OnPump], []), [])
  {
    actions := NextInHand(cfg, i, j, topicA, payloadA, topicB, payloadB);
    Forwarded(cfg, actions, j);
    actions := actions + [Admit(j, true, 0.0)];
    assert Run(cfg, actions).value.pumps ==
           AllIdle(cfg)[i := Publishing(Relayed(cfg, topicA, payloadA), 0, None, 0)]
                       [j := Publishing(Relayed(cfg, topicB, payloadB), 0, None, 1)];
  }

  /** The later one lands and the earlier one's publish fails: it is buffered behind. */
  lemma LaterLandsFirst(cfg: Config, i: nat, j: nat, topicA: string, payloadA: Bytes, topicB: string, payloadB: Bytes)
    returns (actions: seq<Action>)
    requires EvtAsShipped(cfg)
    requires i < |cfg.classes| && j < |cfg.classes| && i != j && cfg.classes[i] == cfg.classes[j] == Evt
    requires Decide(cfg.engine, cfg.codec, Uplink, topicA, payloadA).Forward?
    requires Decide(cfg.engine, cfg.codec, Uplink, topicB, payloadB).Forward?
    ensures Run(cfg, actions).Some?
    ensures var a, b := Relayed(cfg, topicA, payloadA), Relayed(cfg, topicB, payloadB);
            At(cfg, Run(cfg, actions).value, [a], AllIdle(cfg), Sleeping, [a],
               Line([Birth(i, a, true, None, {}), Birth(j, b, true, None, {0})], [InLog(0), Landed(0)], [0]),
               [Live(Evt, b, 0, None, 1)])
  {
    actions := BothPublishing(cfg, i, j, topicA, payloadA, topicB, payloadB);
    RunExtends(cfg, actions, Publish(j, true));
    actions := actions + [Publish(j, true)];
    var s, a := Run(cfg, actions).value, Relayed(cfg, topicA, payloadA);
    assert s.pumps[i] == Publishing(a, 0, None, 0);
    assert Push(s.policy, a) == (s.policy.(evtBuffer := [] + [a]), Stored(false));
    RunExtends(cfg, actions, Publish(i, false));
    actions := actions + [Publish(i, false)];
    assert Run(cfg, actions).value.pumps == AllIdle(cfg);
    assert Run(cfg, actions).value.line.places == [InLog(0), Landed(0)];
  }

  /** A live event overtakes one being published on another pump: on any two `evt` pumps of
      any engine, with the link up and nothing in flight throughout the admissions, the event
      admitted second lands first and the first one's replay lands after it. */
  lemma PublishOvertaken(cfg: Config, i: nat, j: nat, topicA: string, payloadA: Bytes, topicB: string, payloadB: Bytes)
    returns (actions: seq<Action>)
    requires EnginePumps(cfg) && EvtAsShipped(cfg)
    requires i < |cfg.classes| && j < |cfg.classes| && i != j && cfg.classes[i] == cfg.classes[j] == Evt
    requires Decide(cfg.engine, cfg.codec, Uplink, topicA, payloadA).Forward?
    requires Decide(cfg.engine, cfg.codec, Uplink, topicB, payloadB).Forward?
    ensures Run(cfg, actions).Some?
    ensures var a, b := Relayed(cfg, topicA, payloadA), Relayed(cfg, topicB, payloadB);
            && Run(cfg, actions).value.site == [Live(Evt, b, 0, None, 1), Replay(0, a, 0)]
            && Run(cfg, actions).value.line.births == [Birth(i, a, true, None, {}), Birth(j, b, true, None, {0})]
  {
    actions := LaterLandsFirst(cfg, i, j, topicA, payloadA, topicB, payloadB);
    actions := WokenUp(cfg, actions);
    RunExtends(cfg, actions, TakeOldest(true));
    actions := actions + [TakeOldest(true)];
    RunExtends(cfg, actions, PublishReplay(true));
    actions := actions + [PublishReplay(true)];
  }

  /** One event admitted live, the next buffered on another pump; then the first one's publish
      fails and it is pushed behind. */
  lemma BothPushed(cfg: Config, i: nat, j: nat, topicA: string, payloadA: Bytes, topicB: string, payloadB: Bytes)
    returns (actions: seq<Action>)
    requires EvtAsShipped(cfg) && Configured(cfg.uplink).evtBufferMax > 1
    requires i < |cfg.classes| && j < |cfg.classes| && i != j && cfg.classes[i] == cfg.classes[j] == Evt
    requires Decide(cfg.engine, cfg.codec, Uplink, topicA, payloadA).Forward?
    requires Decide(cfg.engine, cfg.codec, Uplink, topicB, payloadB).Forward?
    ensures Run(cfg, actions).Some?
    ensures var a, b := Relayed(cfg, topicA, payloadA), Relayed(cfg, topicB, payloadB);
            At(cfg, Run(cfg, actions).value, [b, a], AllIdle(cfg), Sleeping, [b, a],
               Line([Birth(i, a, true, None, {}), Birth(j, b, false, None, {0})], [InLog(1), InLog(0)], [1, 0]), [])
  {
    var a, b := Relayed(cfg, topicA, payloadA), Relayed(cfg, topicB, payloadB);
    actions := OneLiveOneBuffered(cfg, i, j, topicA, payloadA, topicB, payloadB);
    var s := Run(cfg, actions).value;
    assert s.pumps[i] == Publishing(a, 0, None, 0);
    assert Push(s.policy, a) == (s.policy.(evtBuffer := [b] + [a]), Stored(false));
    RunExtends(cfg, actions, Publish(i, false));
    actions := actions + [Publish(i, false)];
    assert Run(cfg, actions).value.pumps == AllIdle(cfg);
  }

  lemma OneLiveOneBuffered(cfg: Config, i: nat, j: nat, topicA: string, payloadA: Bytes, topicB: string,
                           payloadB: Bytes)
    returns (actions: seq<Action>)
    requires EvtAsShipped(cfg) && Configured(cfg.uplink).evtBufferMax > 1
    requires i < |cfg.classes| && j < |cfg.classes| && i != j && cfg.classes[i] == cfg.classes[j] == Evt
    requires Decide(cfg.engine, cfg.codec, Uplink, topicA, payloadA).Forward?
    requires Decide(cfg.engine, cfg.codec, Uplink, topicB, payloadB).Forward?
    ensures Run(cfg, actions).Some?
    ensures var a, b := Relayed(cfg, topicA, payloadA), Relayed(cfg, topicB, payloadB);
            At(cfg, Run(cfg, actions).value, [b], AllIdle(cfg)[i := Publishing(a, 0, None, 0)], Sleeping, [b],
               Line([Birth(i, a, true, None, {}), Birth(j, b, false, None, {0})], [OnPump, InLog(0)], [1]), [])
  {
    var a := Relayed(cfg, topicA, payloadA);
    actions := NextInHand(cfg, i, j, topicA, payloadA, topicB, payloadB);
    Queued(cfg, actions, j);
    actions := actions + [Admit(j, false, 0.0)];
    assert Run(cfg, actions).value.pumps == AllIdle(cfg)[i := Publishing(a, 0, None, 0)];
  }

  /** The oldest buffered event replayed. */
  lemma OneReplayed(cfg: Config, actions: seq<Action>) returns (longer: seq<Action>)
    requires Run(cfg, actions).Some?
    requires var s := Run(cfg, actions).value;
             s.pc.Draining? && 0 < |s.policy.evtBuffer| <= |s.evts.log| == |s.line.pushes|
    ensures Run(cfg, longer).Some?
    ensures var s, t := Run(cfg, actions).value, Run(cfg, longer).value;
            var j := |s.evts.log| - |s.policy.evtBuffer|;
            && t.pc == Draining && t.policy.evtBuffer == s.policy.evtBuffer[1..] && t.evts.log == s.evts.log
            && t.line.pushes == s.line.pushes && t.line.births == s.line.births
            && t.site == s.site + [Replay(j, s.policy.evtBuffer[0], s.line.pushes[j])]
  {
    RunExtends(cfg, actions, TakeOldest(true));
    longer := actions + [TakeOldest(true)];
    RunExtends(cfg, longer, PublishReplay(true));
    longer := longer + [PublishReplay(true)];
  }

  /** A buffered event overtakes one being published on another pump: on any two `evt` pumps
      of any engine, the only live admission found all pumps idle and nothing in flight, and
      still the event admitted second lands first. */
  lemma BufferedOvertakes(cfg: Config, i: nat, j: nat, topicA: string, payloadA: Bytes, topicB: string, payloadB: Bytes)
    returns (actions: seq<Action>)
    requires EnginePumps(cfg) && EvtAsShipped(cfg) && Configured(cfg.uplink).evtBufferMax > 1
    requires i < |cfg.classes| && j < |cfg.classes| && i != j && cfg.classes[i] == cfg.classes[j] == Evt
    requires Decide(cfg.engine, cfg.codec, Uplink, topicA, payloadA).Forward?
    requires Decide(cfg.engine, cfg.codec, Uplink, topicB, payloadB).Forward?
    ensures Run(cfg, actions).Some?
    ensures var a, b := Relayed(cfg, topicA, payloadA), Relayed(cfg, topicB, payloadB);
            && Run(cfg, actions).value.site == [Replay(0, b, 1), Replay(1, a, 0)]
            && Run(cfg, actions).value.line.births == [Birth(i, a, true, None, {}), Birth(j, b, false, None, {0})]
  {
    actions := BothPushed(cfg, i, j, topicA, payloadA, topicB, payloadB);
    actions := WokenUp(cfg, actions);
    actions := OneReplayed(cfg, actions);
    actions := OneReplayed(cfg, actions);
  }
}

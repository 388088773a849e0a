/** The uplink governor: its lock scopes as code over the policy, and the interleaving of
    any number of uplink pumps with the one connectivity watcher as a step system. */
module Governor {
  import opened Wrappers
  import opened Topics
  import opened Messages
  import opened Relay
  import opened Policy

  // ---- counters ----

  /** One counter per policy class, in slot order. */
  type PerClass = s: seq<nat> | |s| == 7 witness [0, 0, 0, 0, 0, 0, 0]

  datatype Counters = Counters(
    uplinked: PerClass,
    disabled: PerClass,
    rate: PerClass,
    disconnected: PerClass,
    loop: nat,
    routed: nat,
    malformed: nat,
    evtBuffered: nat,
    evtBufferDropped: nat,
    evtReplayed: nat)

  const NoneCounted: PerClass := [0, 0, 0, 0, 0, 0, 0]

  const NoCounts := Counters(NoneCounted, NoneCounted, NoneCounted, NoneCounted, 0, 0, 0, 0, 0, 0)

  /** `cmd` has no slot: counting it is a no-op. */
  function Incr(s: PerClass, c: UnsClass): PerClass {
    if ClassIndex(c).None? then s else s[ClassIndex(c).value := s[ClassIndex(c).value] + 1]
  }

  function CountDrop(k: Counters, reason: DropReason): Counters {
    match reason
    case OwnEcho => k.(loop := k.loop + 1)
    case MaxHopsExceeded => k.(loop := k.loop + 1)
    case MalformedEnvelope => k.(malformed := k.malformed + 1)
    case NotUnsTopic => k.(routed := k.routed + 1)
    case ClassNotRelayed => k.(routed := k.routed + 1)
    case NotOwnDevice => k.(routed := k.routed + 1)
  }

  function RecordPush(k: Counters, push: EvtPush, c: UnsClass): Counters {
    match push
    case Stored(evicted) =>
      k.(evtBuffered := k.evtBuffered + 1,
         evtBufferDropped := k.evtBufferDropped + if evicted then 1 else 0)
    case Rejected => k.(disconnected := Incr(k.disconnected, c))
  }

  // ---- lock scopes ----

  /** What the policy and counters are after one lock scope, and whether the message is
      still to be published. */
  datatype Scope = Scope(policy: PolicyState, counters: Counters, forward: bool)

  /** Admission, with the push in the same scope when the message is to be buffered. */
  function AdmitScope(p: PolicyState, k: Counters, c: UnsClass, item: Item, connected: bool, now: real): Scope
    requires Policy.WellFormed(p)
  {
    var (q, verdict) := Admission(p, c, connected, now);
    match verdict
    case Forward => Scope(q, k, true)
    case Buffer => Scope(Push(q, item).0, RecordPush(k, Push(q, item).1, c), false)
    case DropDisabled => Scope(q, k.(disabled := Incr(k.disabled, c)), false)
    case DropDisconnected => Scope(q, k.(disconnected := Incr(k.disconnected, c)), false)
    case DropRateCapped => Scope(q, k.(rate := Incr(k.rate, c)), false)
  }

  /** Exactly a Forward verdict lets the message through, and admission lands nothing. */
  lemma AdmitScopePasses(p: PolicyState, k: Counters, c: UnsClass, item: Item, connected: bool, now: real)
    requires Policy.WellFormed(p)
    ensures var scope := AdmitScope(p, k, c, item, connected, now);
            && (scope.forward <==> Admission(p, c, connected, now).1 == UplinkVerdict.Forward)
            && scope.counters.uplinked == k.uplinked
            && scope.counters.evtReplayed == k.evtReplayed
  {
  }

  /** A failed live publish: an `evt` is buffered, anything else counts as disconnected. */
  function FailScope(p: PolicyState, k: Counters, c: UnsClass, item: Item): Scope {
    if c == Evt then Scope(Push(p, item).0, RecordPush(k, Push(p, item).1, c), false)
    else Scope(p, k.(disconnected := Incr(k.disconnected, c)), false)
  }

  /** A failed replay: requeued in front, or dropped when the buffer has refilled. */
  function RequeueScope(p: PolicyState, k: Counters, item: Item): Scope {
    var (q, kept) := Requeue(p, item);
    Scope(q, if kept then k else k.(evtBufferDropped := k.evtBufferDropped + 1), false)
  }

  /** The code of the lock scopes. Between two of them any other task may run one. */
  /** Every counter after an admission: the verdict moves the one it names, for the class of
      the message alone, and a Buffer verdict moves those of its push. */
  lemma AdmitScopeExactly(p: PolicyState, k: Counters, c: UnsClass, item: Item, connected: bool, now: real, slot: nat)
    requires Policy.WellFormed(p) && slot < 7
    ensures var (q, verdict) := Admission(p, c, connected, now);
            var scope, own := AdmitScope(p, k, c, item, connected, now), if ClassIndex(c) == Some(slot) then 1 else 0;
            && scope.policy == (if verdict == Buffer then Push(q, item).0 else q)
            && scope.counters.disabled[slot] == k.disabled[slot] + (if verdict == DropDisabled then own else 0)
            && scope.counters.rate[slot] == k.rate[slot] + (if verdict == DropRateCapped then own else 0)
            && scope.counters.disconnected[slot] ==
                 k.disconnected[slot] +
                 (if verdict == DropDisconnected || (verdict == Buffer && p.evtBufferMax == 0) then own else 0)
            && scope.counters.evtBuffered ==
                 k.evtBuffered + (if verdict == Buffer && p.evtBufferMax > 0 then 1 else 0)
            && scope.counters.evtBufferDropped ==
                 k.evtBufferDropped +
                 (if verdict == Buffer && |p.evtBuffer| == p.evtBufferMax > 0 then 1 else 0)
            && scope.counters.uplinked == k.uplinked && scope.counters.evtReplayed == k.evtReplayed
            && scope.counters.loop == k.loop && scope.counters.routed == k.routed
            && scope.counters.malformed == k.malformed
  {
  }

  /** After a failed live publish: an `evt` is pushed, and anything else, as an `evt` with the
      buffer off, is counted disconnected. */
  lemma FailScopeExactly(p: PolicyState, k: Counters, c: UnsClass, item: Item, slot: nat)
    requires Policy.WellFormed(p) && slot < 7
    ensures var scope, own := FailScope(p, k, c, item), if ClassIndex(c) == Some(slot) then 1 else 0;
            var stored := c == Evt && p.evtBufferMax > 0;
            && scope.policy == (if c == Evt then Push(p, item).0 else p)
            && scope.counters ==
                 k.(evtBuffered := k.evtBuffered + (if stored then 1 else 0),
                    evtBufferDropped :=
                      k.evtBufferDropped + (if stored && |p.evtBuffer| == p.evtBufferMax then 1 else 0),
                    disconnected := scope.counters.disconnected)
            && scope.counters.disconnected[slot] == k.disconnected[slot] + (if stored then 0 else own)
  {
  }

  class UplinkGovernor {
    const policy: UplinkPolicy
    var counters: Counters

    constructor (uplink: UplinkConfig)
      ensures policy.Valid() && fresh(policy) && fresh(policy.Buckets())
      ensures policy.Value() == Configured(uplink)
      ensures counters == NoCounts
    {
      policy := new UplinkPolicy.FromConfig(uplink);
      counters := NoCounts;
    }

    method CountDropped(reason: DropReason)
      modifies this
      ensures counters == CountDrop(old(counters), reason)
      ensures counters ==
              old(counters).(
                loop := old(counters).loop + (if reason in {OwnEcho, MaxHopsExceeded} then 1 else 0),
                malformed := old(counters).malformed + (if reason == MalformedEnvelope then 1 else 0),
                routed := old(counters).routed +
                          (if reason in {NotUnsTopic, ClassNotRelayed, NotOwnDevice} then 1 else 0))
    {
      match reason {
        case OwnEcho | MaxHopsExceeded => counters := counters.(loop := counters.loop + 1);
        case MalformedEnvelope => counters := counters.(malformed := counters.malformed + 1);
        case NotUnsTopic | ClassNotRelayed | NotOwnDevice =>
          counters := counters.(routed := counters.routed + 1);
      }
    }

    method Record(push: EvtPush, c: UnsClass)
      modifies this
      ensures counters == RecordPush(old(counters), push, c)
      ensures counters ==
              old(counters).(
                evtBuffered := old(counters).evtBuffered + (if push.Stored? then 1 else 0),
                evtBufferDropped := old(counters).evtBufferDropped + (if push == Stored(true) then 1 else 0),
                disconnected := counters.disconnected)
      ensures forall slot :: 0 <= slot < 7 ==>
                counters.disconnected[slot] ==
                old(counters).disconnected[slot] + (if push.Rejected? && ClassIndex(c) == Some(slot) then 1 else 0)
    {
      if push.Stored? {
        counters := counters.(evtBuffered := counters.evtBuffered + 1);
        if push.evictedOldest {
          counters := counters.(evtBufferDropped := counters.evtBufferDropped + 1);
        }
      } else {
        counters := counters.(disconnected := Incr(counters.disconnected, c));
      }
    }

    method AdmitAndPush(c: UnsClass, item: Item, connected: bool, now: real) returns (forward: bool)
      requires policy.Valid()
      modifies this, policy, policy.Buckets()
      ensures policy.Valid()
      ensures Scope(policy.Value(), counters, forward) ==
              AdmitScope(old(policy.Value()), old(counters), c, item, connected, now)
    {
      var verdict := policy.Admit(c, connected, now);
      match verdict {
        case Forward =>
          return true;
        case Buffer =>
          var push := policy.PushEvt(item);
          Record(push, c);
        case DropDisabled =>
          counters := counters.(disabled := Incr(counters.disabled, c));
        case DropDisconnected =>
          counters := counters.(disconnected := Incr(counters.disconnected, c));
        case DropRateCapped =>
          counters := counters.(rate := Incr(counters.rate, c));
      }
      return false;
    }

    method PublishFailed(c: UnsClass, item: Item)
      requires policy.Valid()
      modifies this, policy`evtBuffer
      ensures policy.Valid()
      ensures Scope(policy.Value(), counters, false) == FailScope(old(policy.Value()), old(counters), c, item)
    {
      if c == Evt {
        var push := policy.PushEvt(item);
        Record(push, c);
      } else {
        counters := counters.(disconnected := Incr(counters.disconnected, c));
      }
    }

    method ReplayFailed(item: Item)
      requires policy.Valid()
      modifies this, policy`evtBuffer
      ensures policy.Valid()
      ensures Scope(policy.Value(), counters, false) == RequeueScope(old(policy.Value()), old(counters), item)
    {
      var kept := policy.RequeueEvtFront(item);
      if !kept {
        counters := counters.(evtBufferDropped := counters.evtBufferDropped + 1);
      }
    }

    /** One uplink message start to finish, when nothing else takes the lock meanwhile. */
    method RelayUp(c: UnsClass, item: Item, connected: bool, now: real, accepted: bool) returns (published: bool)
      requires policy.Valid()
      modifies this, policy, policy.Buckets()
      ensures policy.Valid()
      ensures var scope := AdmitScope(old(policy.Value()), old(counters), c, item, connected, now);
              && published == (scope.forward && accepted)
              && (!scope.forward ==> Scope(policy.Value(), counters, false) == scope)
              && (published ==>
                    && policy.Value() == scope.policy
                    && counters == scope.counters.(uplinked := Incr(scope.counters.uplinked, c)))
              && (scope.forward && !accepted ==>
                    Scope(policy.Value(), counters, false) == FailScope(scope.policy, scope.counters, c, item))
    {
      var forward := AdmitAndPush(c, item, connected, now);
      if forward && accepted {
        counters := counters.(uplinked := Incr(counters.uplinked, c));
      } else if forward {
        PublishFailed(c, item);
      }
      return forward && accepted;
    }

    /** The replay loop when nothing else takes the lock meanwhile: `link` and `accepted`
        are what the j-th connectivity check and publish come to. It sends the oldest
        events in order, keeps the rest in place, loses none, and stops only when drained,
        cut off or refused. */
    method ReplayBuffered(link: seq<bool>, accepted: seq<bool>) returns (sent: seq<Item>)
      requires policy.Valid() && |link| == |accepted| > |policy.evtBuffer|
      modifies this, policy`evtBuffer
      ensures policy.Valid()
      ensures sent + policy.evtBuffer == old(policy.evtBuffer)
      ensures counters == old(counters).(evtReplayed := old(counters).evtReplayed + |sent|)
      ensures forall j :: 0 <= j < |sent| ==> link[j] && accepted[j]
      ensures policy.evtBuffer == [] || !link[|sent|] || !accepted[|sent|]
    {
      sent := [];
      while link[|sent|]
        invariant policy.Valid()
        invariant |sent| <= |old(policy.evtBuffer)|
        invariant sent + policy.evtBuffer == old(policy.evtBuffer)
        invariant counters == old(counters).(evtReplayed := old(counters).evtReplayed + |sent|)
        invariant forall j :: 0 <= j < |sent| ==> link[j] && accepted[j]
        decreases |policy.evtBuffer|
      {
        ghost var before := policy.Value();
        var item := policy.PopEvt();
        assert policy.evtBuffer == Pop(before).0.evtBuffer && item == Pop(before).1;
        if item.None? {
          return;
        }
        assert before.evtBuffer == [item.value] + policy.evtBuffer;
        if !accepted[|sent|] {
          ghost var popped := policy.Value();
          ReplayFailed(item.value);
          assert policy.evtBuffer == Requeue(popped, item.value).0.evtBuffer == before.evtBuffer;
          return;
        }
        counters := counters.(evtReplayed := counters.evtReplayed + 1);
        sent := sent + [item.value];
      }
    }
  }

  // ---- the step system ----

  /** A pump waits, holds a decided message, or awaits a site publish. `seen` and `flying`
      remember how many events had been pushed at its admission and which one the watcher
      held then; `order` is the place of an `evt` in the order of admission. */
  datatype Pump =
    | Idle
    | Ready(item: Item)
    | Publishing(item: Item, seen: nat, flying: Option<nat>, order: nat)

  datatype WatcherPc =
    | Sleeping
    | Broadcasting(which: nat)
    | Checking
    | Draining
    | Flying(item: Item, index: nat)

  /** A message reaching the site broker: live, or a replay of the index-th push. */
  datatype Landing =
    | Live(cls: UnsClass, item: Item, seen: nat, flying: Option<nat>, order: nat)
    | Replay(index: nat, item: Item, order: nat)

  datatype Event = Ticked(connected: bool) | Broadcast(which: nat) | Replayed(index: nat)

  /** History of the `evt` buffer: every stored push in order, the indices replayed, and
      the indices dropped by eviction or by a refused requeue. */
  datatype Evts = Evts(log: seq<Item>, replayed: seq<nat>, dropped: set<nat>)

  /** The admission of an `evt` that was not dropped there: by which pump, forwarded live or
      buffered, the event in flight then and those other pumps were publishing. */
  datatype Birth = Birth(pump: nat, item: Item, live: bool, flying: Option<nat>, publishing: set<nat>)

  /** Where an admitted `evt` is: being published by its pump, in the push sequence (and not
      replayed), landed at the site, or refused by a buffer that is off. */
  datatype Place = OnPump | InLog(index: nat) | Landed(at: nat) | Refused

  /** Every admitted `evt` in order of admission, where it is, and for each stored push the
      admission it belongs to. */
  datatype Line = Line(births: seq<Birth>, places: seq<Place>, pushes: seq<nat>)

  /** A message delivered to a pump. */
  datatype Received = Received(pump: nat, topic: string, payload: Bytes)

  /** Which pump a live landing came from, and how many messages the bridge had received
      before that one. */
  datatype Origin = Origin(pump: nat, from: nat)

  /** `accepted` collects every message a pump was told to forward; `hands` gives each pump's
      latest such message by reception; `origins` runs beside `site`, None for a replay. */
  datatype GovState = GovState(
    policy: PolicyState,
    counters: Counters,
    pumps: seq<Pump>,
    pc: WatcherPc,
    wasConnected: bool,
    evts: Evts,
    line: Line,
    site: seq<Landing>,
    origins: seq<Option<Origin>>,
    hands: map<nat, nat>,
    inbox: seq<Received>,
    received: nat,
    decided: PerClass,
    accepted: multiset<Item>,
    events: seq<Event>)

  /** `classes` is the class each pump was subscribed for; `baseline` the link state when
      the watcher started. */
  datatype Config = Config(engine: RelayEngine, codec: Codec, uplink: UplinkConfig, classes: seq<UnsClass>,
                           baseline: bool)

  predicate ValidConfig(cfg: Config) {
    Cmd !in cfg.classes
  }

  /** One atomic step, with everything the environment chooses: deliveries, the link
      state, the clock, publish results. */
  datatype Action =
    | Receive(pump: nat, topic: string, payload: Bytes)
    | Admit(pump: nat, connected: bool, now: real)
    | Publish(pump: nat, ok: bool)
    | Tick(connected: bool)
    | Announce
    | CheckPending
    | TakeOldest(connected: bool)
    | PublishReplay(ok: bool)

  function Initial(cfg: Config): GovState {
    GovState(Configured(cfg.uplink), NoCounts, seq(|cfg.classes|, i => Idle), Sleeping, cfg.baseline,
          Evts([], [], {}), Line([], [], []), [], [], map[], [], 0, NoneCounted, multiset{}, [])
  }

  function InFlight(s: GovState): Option<nat> {
    if s.pc.Flying? then Some(s.pc.index) else None
  }

  /** The history after a push: the victim of an eviction is the oldest buffered index. */
  function Logged(p: PolicyState, h: Evts, item: Item): Evts {
    match Push(p, item).1
    case Rejected => h
    case Stored(evicted) =>
      h.(log := h.log + [item],
         dropped := if evicted && |p.evtBuffer| <= |h.log| then h.dropped + {|h.log| - |p.evtBuffer|} else h.dropped)
  }

  function PlaceAt(l: Line, order: nat, p: Place): Line {
    if order < |l.places| then l.(places := l.places[order := p]) else l
  }

  /** The line after a push of the admission `order`. */
  function Pushed(l: Line, order: nat, push: EvtPush): Line {
    match push
    case Rejected => PlaceAt(l, order, Refused)
    case Stored(_) => PlaceAt(l, order, InLog(|l.pushes|)).(pushes := l.pushes + [order])
  }

  function OrderOf(l: Line, index: nat): nat {
    if index < |l.pushes| then l.pushes[index] else 0
  }

  /** The orders of the events being published by pumps. */
  function PublishingNow(cfg: Config, s: GovState): set<nat>
    requires |s.pumps| == |cfg.classes|
  {
    set j | 0 <= j < |s.pumps| && cfg.classes[j] == Evt && s.pumps[j].Publishing? :: s.pumps[j].order
  }

  /** The line after pump `i` admitted an `evt`. */
  function Joined(cfg: Config, s: GovState, i: nat, item: Item, live: bool): Line
    requires |s.pumps| == |cfg.classes|
  {
    var flying := if s.pc.Flying? then Some(OrderOf(s.line, s.pc.index)) else None;
    s.line.(births := s.line.births + [Birth(i, item, live, flying, PublishingNow(cfg, s))],
            places := s.line.places + [OnPump])
  }

  predicate Possible(cfg: Config, s: GovState, a: Action) {
    match a
    case Receive(i, _, _) => i < |s.pumps| == |cfg.classes| && s.pumps[i].Idle?
    case Admit(i, _, _) => i < |s.pumps| == |cfg.classes| && s.pumps[i].Ready? && Policy.WellFormed(s.policy)
    case Publish(i, _) => i < |s.pumps| == |cfg.classes| && s.pumps[i].Publishing?
    case Tick(_) => s.pc.Sleeping?
    case Announce => s.pc.Broadcasting? && s.pc.which < 2
    case CheckPending => s.pc.Checking?
    case TakeOldest(_) => s.pc.Draining?
    case PublishReplay(_) => s.pc.Flying?
  }

  function OnReceive(cfg: Config, s: GovState, i: nat, topic: string, payload: Bytes): GovState
    requires Possible(cfg, s, Receive(i, topic, payload))
  {
    var t := s.(received := s.received + 1, inbox := s.inbox + [Received(i, topic, payload)]);
    match Decide(cfg.engine, cfg.codec, Uplink, topic, payload)
    case Drop(reason) => t.(counters := CountDrop(s.counters, reason))
    case Forward(bytes) =>
      t.(decided := Incr(s.decided, cfg.classes[i]), accepted := s.accepted + multiset{Item(topic, bytes)},
         pumps := s.pumps[i := Ready(Item(topic, bytes))], hands := s.hands[i := s.received])
  }

  function OnAdmit(cfg: Config, s: GovState, i: nat, connected: bool, now: real): GovState
    requires Possible(cfg, s, Admit(i, connected, now))
  {
    var item := s.pumps[i].item;
    var c := cfg.classes[i];
    var scope := AdmitScope(s.policy, s.counters, c, item, connected, now);
    var verdict := Admission(s.policy, c, connected, now).1;
    s.(policy := scope.policy, counters := scope.counters,
       pumps := s.pumps[i := if scope.forward
                             then Publishing(item, |s.evts.log|, InFlight(s), |s.line.births|)
                             else Idle],
       evts := if verdict == Buffer then Logged(s.policy, s.evts, item) else s.evts,
       line := if verdict == Buffer
               then Pushed(Joined(cfg, s, i, item, false), |s.line.births|, Push(s.policy, item).1)
               else if scope.forward && c == Evt then Joined(cfg, s, i, item, true)
               else s.line)
  }

  function OnPublish(cfg: Config, s: GovState, i: nat, ok: bool): GovState
    requires Possible(cfg, s, Publish(i, ok))
  {
    var pump := s.pumps[i];
    var c := cfg.classes[i];
    var t := s.(pumps := s.pumps[i := Idle]);
    if ok then
      t.(counters := s.counters.(uplinked := Incr(s.counters.uplinked, c)),
         site := s.site + [Live(c, pump.item, pump.seen, pump.flying, pump.order)],
         origins := s.origins + [if i in s.hands then Some(Origin(i, s.hands[i])) else None],
         line := if c == Evt then PlaceAt(s.line, pump.order, Landed(|s.site|)) else s.line)
    else
      var scope := FailScope(s.policy, s.counters, c, pump.item);
      t.(policy := scope.policy, counters := scope.counters,
         evts := if c == Evt then Logged(s.policy, s.evts, pump.item) else s.evts,
         line := if c == Evt then Pushed(s.line, pump.order, Push(s.policy, pump.item).1) else s.line)
  }

  function OnTick(s: GovState, connected: bool): GovState {
    var t := s.(events := s.events + [Ticked(connected)]);
    if connected && !s.wasConnected then t.(pc := Broadcasting(0))
    else if connected then t.(pc := Checking)
    else t.(wasConnected := false)
  }

  function OnAnnounce(s: GovState): GovState
    requires s.pc.Broadcasting?
  {
    s.(events := s.events + [Broadcast(s.pc.which)],
       pc := if s.pc.which == 0 then Broadcasting(1) else Draining)
  }

  function OnTakeOldest(s: GovState, connected: bool): GovState {
    if !connected || s.policy.evtBuffer == [] then s.(pc := Sleeping, wasConnected := true)
    else
      s.(policy := Pop(s.policy).0,
         pc := Flying(s.policy.evtBuffer[0],
                      if |s.policy.evtBuffer| <= |s.evts.log| then |s.evts.log| - |s.policy.evtBuffer| else 0))
  }

  function OnPublishReplay(s: GovState, ok: bool): GovState
    requires s.pc.Flying?
  {
    var index := s.pc.index;
    if ok then
      s.(counters := s.counters.(evtReplayed := s.counters.evtReplayed + 1),
         evts := s.evts.(replayed := s.evts.replayed + [index]),
         site := s.site + [Replay(index, s.pc.item, OrderOf(s.line, index))],
         origins := s.origins + [None],
         line := PlaceAt(s.line, OrderOf(s.line, index), Landed(|s.site|)),
         events := s.events + [Replayed(index)],
         pc := Draining)
    else
      var scope := RequeueScope(s.policy, s.counters, s.pc.item);
      var kept := Requeue(s.policy, s.pc.item).1;
      s.(policy := scope.policy, counters := scope.counters,
         evts := if kept then s.evts else s.evts.(dropped := s.evts.dropped + {index}),
         pc := Sleeping, wasConnected := true)
  }

  function Step(cfg: Config, s: GovState, a: Action): (t: GovState)
    requires Possible(cfg, s, a)
    ensures Policy.WellFormed(s.policy) ==> Policy.WellFormed(t.policy)
  {
    match a
    case Receive(i, topic, payload) => OnReceive(cfg, s, i, topic, payload)
    case Admit(i, connected, now) => OnAdmit(cfg, s, i, connected, now)
    case Publish(i, ok) => OnPublish(cfg, s, i, ok)
    case Tick(connected) => OnTick(s, connected)
    case Announce => OnAnnounce(s)
    case CheckPending =>
      if s.policy.evtBuffer != [] then s.(pc := Draining) else s.(pc := Sleeping, wasConnected := true)
    case TakeOldest(connected) => OnTakeOldest(s, connected)
    case PublishReplay(ok) => OnPublishReplay(s, ok)
  }

  /** The state after a run of actions, or None when one of them was not possible. */
  function Run(cfg: Config, actions: seq<Action>): (r: Option<GovState>)
    ensures r.Some? ==> Policy.WellFormed(r.value.policy)
    decreases |actions|
  {
    if actions == [] then Some(Initial(cfg))
    else
      var before := Run(cfg, actions[..|actions| - 1]);
      var a := actions[|actions| - 1];
      if before.Some? && Possible(cfg, before.value, a) then Some(Step(cfg, before.value, a)) else None
  }

  // ---- the steps, one by one ----

  /** A publish the site accepts lands the message in the pump's hands, under the pump's
      class; one it refuses lands nothing. Either way the pump is free. */
  lemma PublishExactly(cfg: Config, s: GovState, i: nat, ok: bool)
    requires Possible(cfg, s, Publish(i, ok))
    ensures var t := OnPublish(cfg, s, i, ok);
            && t.pumps == s.pumps[i := Idle]
            && |t.site| == |s.site| + (if ok then 1 else 0) && s.site <= t.site
            && (ok ==> t.site[|s.site|].Live? && t.site[|s.site|].cls == cfg.classes[i]
                       && t.site[|s.site|].item == s.pumps[i].item)
            && (ok ==> t.policy == s.policy)
            && (ok ==> t.counters == s.counters.(uplinked := Incr(s.counters.uplinked, cfg.classes[i])))
            && (!ok ==> var f := FailScope(s.policy, s.counters, cfg.classes[i], s.pumps[i].item);
                        t.policy == f.policy && t.counters == f.counters)
  {
  }

  /** A pump goes on to publish what it holds exactly on a Forward verdict. */
  lemma AdmitExactly(cfg: Config, s: GovState, i: nat, connected: bool, now: real)
    requires Possible(cfg, s, Admit(i, connected, now))
    ensures var t := OnAdmit(cfg, s, i, connected, now);
            && t.pumps == s.pumps[i := t.pumps[i]] && t.site == s.site
            && Scope(t.policy, t.counters, t.pumps[i].Publishing?) ==
               AdmitScope(s.policy, s.counters, cfg.classes[i], s.pumps[i].item, connected, now)
            && (t.pumps[i].Publishing? <==>
                  Admission(s.policy, cfg.classes[i], connected, now).1 == UplinkVerdict.Forward)
            && (t.pumps[i].Publishing? ==> t.pumps[i].item == s.pumps[i].item)
            && (!t.pumps[i].Publishing? ==> t.pumps[i].Idle?)
  {
  }

  /** Nothing is popped while the link is down; while it is up, the oldest event is, and
      with none left the watcher goes back to sleep. */
  lemma TakeOldestExactly(s: GovState, connected: bool)
    requires Policy.WellFormed(s.policy) && s.pc.Draining?
    ensures var t := OnTakeOldest(s, connected);
            && (t.pc.Flying? <==> connected && s.policy.evtBuffer != [])
            && (t.pc.Flying? ==> s.policy.evtBuffer == [t.pc.item] + t.policy.evtBuffer)
            && (!t.pc.Flying? ==> t.pc == Sleeping && t.policy == s.policy)
            && t.site == s.site && t.counters == s.counters && t.pumps == s.pumps
  {
    if s.policy.evtBuffer != [] { assert s.policy.evtBuffer == [s.policy.evtBuffer[0]] + s.policy.evtBuffer[1..]; }
  }

  /** A replay the site accepts lands and the drain goes on; a refused one stops the drain,
      and the event is oldest again, or dropped and counted if the buffer has refilled. */
  lemma PublishReplayExactly(s: GovState, ok: bool)
    requires Policy.WellFormed(s.policy) && s.pc.Flying?
    ensures var t := OnPublishReplay(s, ok);
            && (ok ==> t.pc == Draining && t.policy == s.policy && |t.site| == |s.site| + 1 && s.site <= t.site
                       && t.site[|s.site|].Replay? && t.site[|s.site|].item == s.pc.item
                       && t.counters == s.counters.(evtReplayed := s.counters.evtReplayed + 1))
            && (!ok ==>
                  var room := |s.policy.evtBuffer| < s.policy.evtBufferMax;
                  && t.pc == Sleeping && t.site == s.site
                  && t.policy.evtBuffer == (if room then [s.pc.item] else []) + s.policy.evtBuffer
                  && t.counters ==
                       s.counters.(evtBufferDropped := s.counters.evtBufferDropped + (if room then 0 else 1)))
            && t.pumps == s.pumps
  {
  }

  /** Every pump and the watcher always have a step, whatever the environment answers. */
  lemma NobodyIsStuck(cfg: Config, s: GovState, i: nat, topic: string, payload: Bytes, ok: bool, now: real)
    requires i < |s.pumps| == |cfg.classes| && Policy.WellFormed(s.policy)
    requires s.pc.Broadcasting? ==> s.pc.which < 2
    ensures || Possible(cfg, s, Receive(i, topic, payload))
            || Possible(cfg, s, Admit(i, ok, now))
            || Possible(cfg, s, Publish(i, ok))
    ensures || Possible(cfg, s, Tick(ok)) || Possible(cfg, s, Announce) || Possible(cfg, s, CheckPending)
            || Possible(cfg, s, TakeOldest(ok)) || Possible(cfg, s, PublishReplay(ok))
  {
  }

  /** A message that `decide` forwards is in the hands of its pump, on its topic; one that it
      drops is counted under its reason, and the pump stays free. */
  lemma ReceiveExactly(cfg: Config, s: GovState, i: nat, topic: string, payload: Bytes)
    requires Possible(cfg, s, Receive(i, topic, payload))
    ensures var t, d := OnReceive(cfg, s, i, topic, payload), Decide(cfg.engine, cfg.codec, Uplink, topic, payload);
            && (d.Forward? ==> t.pumps == s.pumps[i := Ready(Item(topic, d.bytes))] && t.counters == s.counters)
            && (d.Drop? ==> t.pumps == s.pumps)
            && (d.Drop? ==>
                  t.counters ==
                  s.counters.(
                    loop := s.counters.loop + (if d.reason in {OwnEcho, MaxHopsExceeded} then 1 else 0),
                    malformed := s.counters.malformed + (if d.reason == MalformedEnvelope then 1 else 0),
                    routed := s.counters.routed +
                              (if d.reason in {NotUnsTopic, ClassNotRelayed, NotOwnDevice} then 1 else 0)))
            && t.received == s.received + 1 && t.policy == s.policy && t.site == s.site
  {
  }
}

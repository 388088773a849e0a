/** Every message an uplink pump receives is counted exactly once. */
module UplinkAccounts {
  import opened Wrappers
  import opened Topics
  import opened Messages
  import opened Relay
  import opened Policy
  import opened Governor

  /** Pumps subscribed for the class in slot `k` that are in the middle of a message. */
  function Busy(pumps: seq<Pump>, classes: seq<UnsClass>, k: nat): nat
    requires |pumps| == |classes|
  {
    if pumps == [] then 0
    else (if !pumps[0].Idle? && ClassIndex(classes[0]) == Some(k) then 1 else 0) + Busy(pumps[1..], classes[1..], k)
  }

  lemma {:induction false} BusyUpdate(pumps: seq<Pump>, classes: seq<UnsClass>, i: nat, pump: Pump, k: nat)
    requires |pumps| == |classes| && i < |pumps|
    ensures var mine := ClassIndex(classes[i]) == Some(k);
            Busy(pumps[i := pump], classes, k) + (if mine && !pumps[i].Idle? then 1 else 0) ==
            Busy(pumps, classes, k) + (if mine && !pump.Idle? then 1 else 0)
  {
    var updated := pumps[i := pump];
    if i == 0 {
      assert updated[1..] == pumps[1..];
    } else {
      BusyUpdate(pumps[1..], classes[1..], i - 1, pump, k);
      assert updated[1..] == pumps[1..][i - 1 := pump];
    }
  }

  lemma {:induction false} NoneBusy(pumps: seq<Pump>, classes: seq<UnsClass>, k: nat)
    requires |pumps| == |classes| && forall i :: 0 <= i < |pumps| ==> pumps[i].Idle?
    ensures Busy(pumps, classes, k) == 0
  {
    if pumps != [] { NoneBusy(pumps[1..], classes[1..], k); }
  }

  /** What became of the decided messages of one class. */
  function Accounted(k: Counters, slot: nat): nat
    requires slot < 7
  {
    k.uplinked[slot] + k.disabled[slot] + k.rate[slot] + k.disconnected[slot] +
    if POLICY_CLASSES[slot] == Evt then k.evtBuffered else 0
  }

  function Total(s: PerClass): nat { s[0] + s[1] + s[2] + s[3] + s[4] + s[5] + s[6] }

  ghost predicate SlotBalanced(cfg: Config, s: GovState, slot: nat)
    requires |s.pumps| == |cfg.classes| && slot < 7
  {
    s.decided[slot] == Accounted(s.counters, slot) + Busy(s.pumps, cfg.classes, slot)
  }

  ghost predicate Balanced(cfg: Config, s: GovState) {
    && |s.pumps| == |cfg.classes|
    && s.received == s.counters.loop + s.counters.routed + s.counters.malformed + Total(s.decided)
    && forall slot :: 0 <= slot < 7 ==> SlotBalanced(cfg, s, slot)
  }

  lemma IncrAt(s: PerClass, c: UnsClass, slot: nat)
    requires slot < 7
    ensures Incr(s, c)[slot] == s[slot] + if ClassIndex(c) == Some(slot) then 1 else 0
  {
  }

  lemma RecordCounts(k: Counters, push: EvtPush, slot: nat)
    requires slot < 7
    ensures Accounted(RecordPush(k, push, Evt), slot) ==
            Accounted(k, slot) + if ClassIndex(Evt) == Some(slot) then 1 else 0
  {
    IncrAt(k.disconnected, Evt, slot);
  }

  /** A scope that does not pass the message on counts it once, against its class. */
  lemma AdmitScopeCounts(p: PolicyState, k: Counters, c: UnsClass, item: Item, connected: bool, now: real, slot: nat)
    requires Policy.WellFormed(p) && c != Cmd && slot < 7
    ensures var scope := AdmitScope(p, k, c, item, connected, now);
            && Accounted(scope.counters, slot) ==
                 Accounted(k, slot) + (if ClassIndex(c) == Some(slot) && !scope.forward then 1 else 0)
            && scope.counters.loop == k.loop && scope.counters.routed == k.routed
            && scope.counters.malformed == k.malformed
  {
    var (q, verdict) := Admission(p, c, connected, now);
    match verdict
    case Forward =>
    case Buffer =>
      assert c == Evt;
      RecordCounts(k, Push(q, item).1, slot);
    case DropDisabled => IncrAt(k.disabled, c, slot);
    case DropDisconnected => IncrAt(k.disconnected, c, slot);
    case DropRateCapped => IncrAt(k.rate, c, slot);
  }

  lemma FailScopeCounts(p: PolicyState, k: Counters, c: UnsClass, item: Item, slot: nat)
    requires c != Cmd && slot < 7
    ensures var scope := FailScope(p, k, c, item);
            && Accounted(scope.counters, slot) == Accounted(k, slot) + (if ClassIndex(c) == Some(slot) then 1 else 0)
            && scope.counters.loop == k.loop && scope.counters.routed == k.routed
            && scope.counters.malformed == k.malformed
  {
    IncrAt(k.disconnected, c, slot);
    RecordCounts(k, Push(p, item).1, slot);
  }

  /** One message more received: dropped by `decide`, or in the hands of its pump. */
  lemma OneMoreBalances(cfg: Config, s: GovState, t: GovState, i: nat, pump: Pump)
    requires ValidConfig(cfg) && Balanced(cfg, s) && i < |s.pumps| && s.pumps[i].Idle? && !pump.Idle?
    requires t.pumps == s.pumps[i := pump] && t.counters == s.counters && t.received == s.received + 1
    requires t.decided == Incr(s.decided, cfg.classes[i])
    ensures Balanced(cfg, t)
  {
    forall slot | 0 <= slot < 7 ensures SlotBalanced(cfg, t, slot) {
      assert SlotBalanced(cfg, s, slot);
      BusyUpdate(s.pumps, cfg.classes, i, pump, slot);
      IncrAt(s.decided, cfg.classes[i], slot);
    }
  }

  lemma ReceiveBalances(cfg: Config, s: GovState, i: nat, topic: string, payload: Bytes)
    requires ValidConfig(cfg) && Balanced(cfg, s) && Possible(cfg, s, Receive(i, topic, payload))
    ensures Balanced(cfg, OnReceive(cfg, s, i, topic, payload))
  {
    var t := OnReceive(cfg, s, i, topic, payload);
    match Decide(cfg.engine, cfg.codec, Uplink, topic, payload)
    case Forward(_) => OneMoreBalances(cfg, s, t, i, t.pumps[i]);
    case Drop(_) =>
      forall slot | 0 <= slot < 7 ensures SlotBalanced(cfg, t, slot) {
        assert SlotBalanced(cfg, s, slot);
      }
  }

  lemma AdmitBalances(cfg: Config, s: GovState, i: nat, connected: bool, now: real)
    requires ValidConfig(cfg) && Balanced(cfg, s) && Possible(cfg, s, Admit(i, connected, now))
    ensures Balanced(cfg, OnAdmit(cfg, s, i, connected, now))
  {
    var t := OnAdmit(cfg, s, i, connected, now);
    AdmitScopeCounts(s.policy, s.counters, cfg.classes[i], s.pumps[i].item, connected, now, 0);
    forall slot | 0 <= slot < 7 ensures SlotBalanced(cfg, t, slot) {
      assert SlotBalanced(cfg, s, slot);
      BusyUpdate(s.pumps, cfg.classes, i, t.pumps[i], slot);
      AdmitScopeCounts(s.policy, s.counters, cfg.classes[i], s.pumps[i].item, connected, now, slot);
    }
  }

  lemma PublishBalances(cfg: Config, s: GovState, i: nat, ok: bool)
    requires ValidConfig(cfg) && Balanced(cfg, s) && Possible(cfg, s, Publish(i, ok))
    ensures Balanced(cfg, OnPublish(cfg, s, i, ok))
  {
    var t := OnPublish(cfg, s, i, ok);
    FailScopeCounts(s.policy, s.counters, cfg.classes[i], s.pumps[i].item, 0);
    forall slot | 0 <= slot < 7 ensures SlotBalanced(cfg, t, slot) {
      assert SlotBalanced(cfg, s, slot);
      BusyUpdate(s.pumps, cfg.classes, i, Idle, slot);
      FailScopeCounts(s.policy, s.counters, cfg.classes[i], s.pumps[i].item, slot);
    }
  }

  /** The watcher's steps touch neither the pumps nor a disposition counter. */
  lemma WatcherBalances(cfg: Config, s: GovState, t: GovState)
    requires Balanced(cfg, s) && t.pumps == s.pumps && t.received == s.received && t.decided == s.decided
    requires t.counters ==
             s.counters.(evtReplayed := t.counters.evtReplayed, evtBufferDropped := t.counters.evtBufferDropped)
    ensures Balanced(cfg, t)
  {
    forall slot | 0 <= slot < 7 ensures SlotBalanced(cfg, t, slot) {
      assert SlotBalanced(cfg, s, slot);
    }
  }

  lemma AccountsStep(cfg: Config, s: GovState, a: Action)
    requires ValidConfig(cfg) && Balanced(cfg, s) && Possible(cfg, s, a)
    ensures Balanced(cfg, Step(cfg, s, a))
  {
    match a
    case Receive(i, topic, payload) => ReceiveBalances(cfg, s, i, topic, payload);
    case Admit(i, connected, now) => AdmitBalances(cfg, s, i, connected, now);
    case Publish(i, ok) => PublishBalances(cfg, s, i, ok);
    case Tick(connected) => WatcherBalances(cfg, s, OnTick(s, connected));
    case Announce => WatcherBalances(cfg, s, OnAnnounce(s));
    case CheckPending => WatcherBalances(cfg, s, Step(cfg, s, a));
    case TakeOldest(connected) => WatcherBalances(cfg, s, OnTakeOldest(s, connected));
    case PublishReplay(ok) => WatcherBalances(cfg, s, OnPublishReplay(s, ok));
  }

  /** Single disposition: in every reachable state each received message is in exactly one
      of the drop counters or decided, and each decided message of a class is in exactly
      one of that class's counters or still with its pump. */
  lemma {:induction false} SingleDisposition(cfg: Config, actions: seq<Action>)
    requires ValidConfig(cfg) && Run(cfg, actions).Some?
    ensures Balanced(cfg, Run(cfg, actions).value)
    decreases |actions|
  {
    if actions == [] {
      forall slot | 0 <= slot < 7 ensures SlotBalanced(cfg, Initial(cfg), slot) {
        NoneBusy(Initial(cfg).pumps, cfg.classes, slot);
      }
    } else {
      var front := actions[..|actions| - 1];
      SingleDisposition(cfg, front);
      AccountsStep(cfg, Run(cfg, front).value, actions[|actions| - 1]);
    }
  }

  /** At rest the books close without remainder. */
  lemma BooksCloseAtRest(cfg: Config, actions: seq<Action>)
    requires ValidConfig(cfg) && Run(cfg, actions).Some?
    requires forall i :: 0 <= i < |Run(cfg, actions).value.pumps| ==> Run(cfg, actions).value.pumps[i].Idle?
    ensures var s := Run(cfg, actions).value;
            s.received == s.counters.loop + s.counters.routed + s.counters.malformed
              + Total(s.counters.uplinked) + Total(s.counters.disabled) + Total(s.counters.rate)
              + Total(s.counters.disconnected) + s.counters.evtBuffered
  {
    SingleDisposition(cfg, actions);
    var s := Run(cfg, actions).value;
    forall slot | 0 <= slot < 7 ensures s.decided[slot] == Accounted(s.counters, slot) {
      assert SlotBalanced(cfg, s, slot);
      NoneBusy(s.pumps, cfg.classes, slot);
    }
  }
}

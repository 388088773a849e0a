/** The policy theorems, over the governor's own runs: every interleaving of pumps and
    watcher is one run of operations on the policy. */
module UplinkRuns {
  import opened Wrappers
  import opened Topics
  import opened Messages
  import opened TokenBuckets
  import opened Policy
  import opened PolicyRuns
  import opened Governor
  import opened UplinkAccounts

  /** What a step asks of the policy under its lock. */
  function OpsOf(cfg: Config, s: GovState, a: Action): seq<Op>
    requires Possible(cfg, s, a)
  {
    match a
    case Admit(i, connected, now) => [Arrive(cfg.classes[i], connected, now, s.pumps[i].item)]
    case Publish(i, ok) => if !ok && cfg.classes[i] == Evt then [PushFailed(s.pumps[i].item)] else []
    case TakeOldest(connected) => if connected && s.policy.evtBuffer != [] then [PopOldest] else []
    case PublishReplay(ok) => if ok then [] else [PutBack(s.pc.item)]
    case _ => []
  }

  function PolicyOps(cfg: Config, actions: seq<Action>): seq<Op>
    decreases |actions|
  {
    if actions == [] then []
    else
      var front, a := actions[..|actions| - 1], actions[|actions| - 1];
      var before := Run(cfg, front);
      PolicyOps(cfg, front) +
      if before.Some? && Possible(cfg, before.value, a) then OpsOf(cfg, before.value, a) else []
  }

  /** At most one more operation. */
  lemma StateAfterMore(p: PolicyState, ops: seq<Op>, extra: seq<Op>)
    requires WellFormed(p) && |extra| <= 1
    ensures StateAfter(p, ops + extra) ==
            if extra == [] then StateAfter(p, ops) else Perform(StateAfter(p, ops), extra[0]).0
  {
    if extra == [] {
      assert ops + extra == ops;
    } else {
      assert (ops + extra)[..|ops|] == ops;
    }
  }

  lemma ArrivalIsAdmission(p: PolicyState, k: Counters, c: UnsClass, item: Item, connected: bool, now: real)
    requires WellFormed(p)
    ensures var r := Perform(p, Arrive(c, connected, now, item));
            && r.0 == AdmitScope(p, k, c, item, connected, now).policy
            && r.1.Verdict? && r.1.verdict == Admission(p, c, connected, now).1
            && (r.1.verdict != Buffer ==> r.1.buffered == None)
  {
  }

  lemma AdmitPerforms(cfg: Config, s: GovState, i: nat, connected: bool, now: real)
    requires Possible(cfg, s, Admit(i, connected, now))
    ensures OnAdmit(cfg, s, i, connected, now).policy ==
            Perform(s.policy, Arrive(cfg.classes[i], connected, now, s.pumps[i].item)).0
  {
    ArrivalIsAdmission(s.policy, s.counters, cfg.classes[i], s.pumps[i].item, connected, now);
  }

  /** A step performs its operation on the policy, or leaves the policy alone. */
  lemma StepPerforms(cfg: Config, s: GovState, a: Action)
    requires Possible(cfg, s, a) && WellFormed(s.policy)
    ensures var ops := OpsOf(cfg, s, a);
            && |ops| <= 1
            && Step(cfg, s, a).policy == if ops == [] then s.policy else Perform(s.policy, ops[0]).0
  {
    match a
    case Admit(i, connected, now) => AdmitPerforms(cfg, s, i, connected, now);
    case _ =>
  }

  /** The policy of any reachable state is its operations performed on the configured one. */
  lemma {:induction false} PolicyIsItsOps(cfg: Config, actions: seq<Action>)
    requires Run(cfg, actions).Some?
    ensures Run(cfg, actions).value.policy == StateAfter(Configured(cfg.uplink), PolicyOps(cfg, actions))
    decreases |actions|
  {
    if actions != [] {
      var front := actions[..|actions| - 1];
      PolicyIsItsOps(cfg, front);
      StepPerforms(cfg, Run(cfg, front).value, actions[|actions| - 1]);
      StateAfterMore(Configured(cfg.uplink), PolicyOps(cfg, front),
                     OpsOf(cfg, Run(cfg, front).value, actions[|actions| - 1]));
    }
  }

  /** Non-interference between pumps: what the policy says to a class other than `evt`, in
      any reachable state, depends only on that class's configuration and own connected
      arrivals in the run so far. */
  lemma PumpsDoNotInterfere(cfg: Config, actions: seq<Action>, c: UnsClass, connected: bool, now: real)
    requires Run(cfg, actions).Some? && c != Evt && c != Cmd
    ensures Admission(Run(cfg, actions).value.policy, c, connected, now).1 ==
            OwnVerdict(cfg.uplink, c, ArrivalTimes(PolicyOps(cfg, actions), c), connected, now)
  {
    var item := Item("", []);
    PolicyIsItsOps(cfg, actions);
    VerdictsAreOwn(cfg.uplink, PolicyOps(cfg, actions), c, connected, now, item);
    ArrivalIsAdmission(Run(cfg, actions).value.policy, NoCounts, c, item, connected, now);
  }

  /** And on an `evt`: its switch, the link, the buffer now, and its bucket run over the metered
      events so far. */
  lemma EvtVerdictInRuns(cfg: Config, actions: seq<Action>, connected: bool, now: real)
    requires Run(cfg, actions).Some?
    ensures var p, s := Configured(cfg.uplink), Run(cfg, actions).value;
            var slot, ts := p.classes[ClassIndex(Evt).value], MeteredTimes(p, PolicyOps(cfg, actions), Evt);
            var queued := p.evtBufferMax > 0 && (!connected || s.policy.evtBuffer != []);
            var pays := slot.bucket.None? || Admitted(slot.bucket.value, ts + [now], |ts|);
            Admission(s.policy, Evt, connected, now).1 ==
              if !slot.enabled then DropDisabled
              else if queued then Buffer
              else if !connected then DropDisconnected
              else if pays then UplinkVerdict.Forward else DropRateCapped
  {
    var item := Item("", []);
    PolicyIsItsOps(cfg, actions);
    EvtVerdictExactly(cfg.uplink, PolicyOps(cfg, actions), connected, now, item);
    ArrivalIsAdmission(Run(cfg, actions).value.policy, NoCounts, Evt, item, connected, now);
  }

  // ---- the cap on what reaches the site ----

  /** Pumps of class `c` awaiting a publish. */
  function Sending(pumps: seq<Pump>, classes: seq<UnsClass>, c: UnsClass): nat
    requires |pumps| == |classes|
  {
    if pumps == [] then 0
    else (if pumps[0].Publishing? && classes[0] == c then 1 else 0) + Sending(pumps[1..], classes[1..], c)
  }

  lemma {:induction false} SendingUpdate(pumps: seq<Pump>, classes: seq<UnsClass>, i: nat, pump: Pump, c: UnsClass)
    requires |pumps| == |classes| && i < |pumps|
    ensures Sending(pumps[i := pump], classes, c) + (if classes[i] == c && pumps[i].Publishing? then 1 else 0) ==
            Sending(pumps, classes, c) + (if classes[i] == c && pump.Publishing? then 1 else 0)
  {
    var updated := pumps[i := pump];
    if i == 0 {
      assert updated[1..] == pumps[1..];
    } else {
      SendingUpdate(pumps[1..], classes[1..], i - 1, pump, c);
      assert updated[1..] == pumps[1..][i - 1 := pump];
    }
  }

  lemma {:induction false} NoneSending(pumps: seq<Pump>, classes: seq<UnsClass>, c: UnsClass)
    requires |pumps| == |classes| && forall i :: 0 <= i < |pumps| ==> pumps[i].Idle?
    ensures Sending(pumps, classes, c) == 0
  {
    if pumps != [] { NoneSending(pumps[1..], classes[1..], c); }
  }

  /** Live publishes of a class, done or under way, were all let through by the policy. */
  ghost predicate WithinForwards(cfg: Config, s: GovState, ops: seq<Op>, c: UnsClass)
    requires c != Cmd
  {
    && |s.pumps| == |cfg.classes|
    && s.counters.uplinked[ClassIndex(c).value] + Sending(s.pumps, cfg.classes, c) <=
       Forwards(Configured(cfg.uplink), ops, 0, c)
  }

  lemma ForwardsOne(p: PolicyState, ops: seq<Op>, op: Op, c: UnsClass)
    requires WellFormed(p)
    ensures Forwards(p, ops + [op], 0, c) ==
            Forwards(p, ops, 0, c) +
            if op.Arrive? && op.cls == c && Perform(StateAfter(p, ops), op).1 == Verdict(UplinkVerdict.Forward, None)
            then 1 else 0
  {
    assert (ops + [op])[..|ops|] == ops;
  }

  lemma AdmitWithinForwards(cfg: Config, s: GovState, ops: seq<Op>, c: UnsClass, i: nat, connected: bool, now: real)
    requires c != Cmd && Possible(cfg, s, Admit(i, connected, now)) && WithinForwards(cfg, s, ops, c)
    requires s.policy == StateAfter(Configured(cfg.uplink), ops)
    ensures WithinForwards(cfg, OnAdmit(cfg, s, i, connected, now), ops + OpsOf(cfg, s, Admit(i, connected, now)), c)
  {
    var t, item := OnAdmit(cfg, s, i, connected, now), s.pumps[i].item;
    ForwardsOne(Configured(cfg.uplink), ops, Arrive(cfg.classes[i], connected, now, item), c);
    ArrivalIsAdmission(s.policy, s.counters, cfg.classes[i], item, connected, now);
    AdmitScopePasses(s.policy, s.counters, cfg.classes[i], item, connected, now);
    SendingUpdate(s.pumps, cfg.classes, i, t.pumps[i], c);
  }

  lemma PublishWithinForwards(cfg: Config, s: GovState, ops: seq<Op>, c: UnsClass, i: nat, ok: bool)
    requires c != Cmd && Possible(cfg, s, Publish(i, ok)) && WithinForwards(cfg, s, ops, c)
    ensures WithinForwards(cfg, OnPublish(cfg, s, i, ok), ops + OpsOf(cfg, s, Publish(i, ok)), c)
  {
    SendingUpdate(s.pumps, cfg.classes, i, Idle, c);
    IncrAt(s.counters.uplinked, cfg.classes[i], ClassIndex(c).value);
    var extra := OpsOf(cfg, s, Publish(i, ok));
    if extra == [] { assert ops + extra == ops; } else { ForwardsOne(Configured(cfg.uplink), ops, extra[0], c); }
  }

  lemma ReceiveWithinForwards(cfg: Config, s: GovState, ops: seq<Op>, c: UnsClass, i: nat, topic: string,
                              payload: Bytes)
    requires c != Cmd && Possible(cfg, s, Receive(i, topic, payload)) && WithinForwards(cfg, s, ops, c)
    ensures WithinForwards(cfg, OnReceive(cfg, s, i, topic, payload), ops, c)
  {
    var t := OnReceive(cfg, s, i, topic, payload);
    SendingUpdate(s.pumps, cfg.classes, i, t.pumps[i], c);
    assert t.pumps == s.pumps[i := t.pumps[i]];
  }

  /** The watcher forwards nothing live. */
  lemma WatcherWithinForwards(cfg: Config, s: GovState, ops: seq<Op>, c: UnsClass, a: Action)
    requires c != Cmd && Possible(cfg, s, a) && !a.Receive? && !a.Admit? && !a.Publish?
    requires WithinForwards(cfg, s, ops, c)
    ensures WithinForwards(cfg, Step(cfg, s, a), ops + OpsOf(cfg, s, a), c)
  {
    var extra := OpsOf(cfg, s, a);
    if extra == [] { assert ops + extra == ops; } else { ForwardsOne(Configured(cfg.uplink), ops, extra[0], c); }
  }

  lemma {:induction false} ForwardsBoundRuns(cfg: Config, actions: seq<Action>, c: UnsClass)
    requires Run(cfg, actions).Some? && c != Cmd
    ensures WithinForwards(cfg, Run(cfg, actions).value, PolicyOps(cfg, actions), c)
    decreases |actions|
  {
    if actions == [] {
      NoneSending(Initial(cfg).pumps, cfg.classes, c);
    } else {
      var front, a := actions[..|actions| - 1], actions[|actions| - 1];
      var s, ops := Run(cfg, front).value, PolicyOps(cfg, front);
      ForwardsBoundRuns(cfg, front, c);
      PolicyIsItsOps(cfg, front);
      match a
      case Admit(i, connected, now) => AdmitWithinForwards(cfg, s, ops, c, i, connected, now);
      case Publish(i, ok) => PublishWithinForwards(cfg, s, ops, c, i, ok);
      case Receive(i, topic, payload) =>
        ReceiveWithinForwards(cfg, s, ops, c, i, topic, payload);
        assert ops + [] == ops;
      case _ => WatcherWithinForwards(cfg, s, ops, c, a);
    }
  }

  lemma NoneMeteredNoneForwarded(p: PolicyState, ops: seq<Op>, c: UnsClass)
    requires WellFormed(p) && c != Cmd && p.classes[ClassIndex(c).value].bucket.Some? && MeteredTimes(p, ops, c) == []
    ensures Forwards(p, ops, 0, c) == 0
  {
    ForwardsAreTakes(p, ops, 0, c);
  }

  lemma AllForwardsWithinCap(cfg: UplinkConfig, ops: seq<Op>, c: UnsClass)
    requires c != Cmd && Lookup(cfg, c).maxRatePerSec.Some? && MeteredTimes(Configured(cfg), ops, c) != []
    ensures var ts, p := MeteredTimes(Configured(cfg), ops, c), Lookup(cfg, c);
            Forwards(Configured(cfg), ops, 0, c) as real <= Cap(p.maxRatePerSec.value, Burst(p), ts, 0, |ts| - 1)
  {
    assert ops[..0] == [];
    ForwardsWithinCap(cfg, ops, 0, c);
  }

  lemma FewerIsWithin(m: nat, n: nat, bound: real)
    requires m <= n && n as real <= bound
    ensures m as real <= bound
  {
  }

  /** The cap, on the counter a reader can see and whatever the interleaving: a capped class
      is uplinked live at most burst + rate * (time from its first to its last metered
      message), and not at all if none was metered. */
  lemma UplinkedWithinCap(cfg: Config, actions: seq<Action>, c: UnsClass)
    requires Run(cfg, actions).Some? && c != Cmd && Lookup(cfg.uplink, c).maxRatePerSec.Some?
    ensures var uplinked := Run(cfg, actions).value.counters.uplinked[ClassIndex(c).value];
            var ts, p := MeteredTimes(Configured(cfg.uplink), PolicyOps(cfg, actions), c), Lookup(cfg.uplink, c);
            if ts == [] then uplinked == 0
            else uplinked as real <= Cap(p.maxRatePerSec.value, Burst(p), ts, 0, |ts| - 1)
  {
    var ops, p := PolicyOps(cfg, actions), Lookup(cfg.uplink, c);
    var ts := MeteredTimes(Configured(cfg.uplink), ops, c);
    ForwardsBoundRuns(cfg, actions, c);
    if ts == [] {
      NoneMeteredNoneForwarded(Configured(cfg.uplink), ops, c);
    } else {
      AllForwardsWithinCap(cfg.uplink, ops, c);
      FewerIsWithin(Run(cfg, actions).value.counters.uplinked[ClassIndex(c).value],
                    Forwards(Configured(cfg.uplink), ops, 0, c),
                    Cap(p.maxRatePerSec.value, Burst(p), ts, 0, |ts| - 1));
    }
  }
}

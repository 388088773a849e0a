/** What the reply proxy counts as published it published, what it should publish it does, and
    no task of it is ever stuck. */
module ProxySteps {
  import opened Wrappers
  import opened Messages
  import opened Relay
  import opened Reply
  import opened ReplyProxy
  import opened ReplyInvariants
  import opened ReplyOutcomes
  import opened RoundTrip

  // ---- counters are publications ----

  predicate Counted(s: Proxy) {
    s.counts.downlinked == |s.relayed| && s.counts.replyRelayed == |s.answers|
  }

  /** A step that publishes nothing and counts no publication. */
  lemma QuietCounted(s: Proxy, t: Proxy)
    requires Counted(s) && t.relayed == s.relayed && t.answers == s.answers
    requires t.counts.downlinked == s.counts.downlinked && t.counts.replyRelayed == s.counts.replyRelayed
    ensures Counted(t)
  {
  }

  lemma PumpCounted(cfg: Config, s: Proxy, a: Action)
    requires Counted(s) && Possible(cfg, s, a) && IsPumpAction(a)
    ensures Counted(Step(cfg, s, a))
  {
    match a
    case RewriteCmd(i, minted, now) =>
      RewriteShape(cfg, s, i, minted, now);
      QuietCounted(s, OnRewrite(cfg, s, i, minted, now));
    case Receive(i, topic, payload) => QuietCounted(s, OnReceive(cfg, s, i, topic, payload));
    case Evict(i) => QuietCounted(s, OnEvict(s, i));
    case Subscribe(i, ok) => QuietCounted(s, OnSubscribe(s, i, ok));
    case GiveUp(i) => QuietCounted(s, OnGiveUp(s, i));
    case Recheck(i) => QuietCounted(s, OnRecheck(s, i));
    case Undangle(i) => QuietCounted(s, OnUndangle(s, i));
    case RelayDown(i, ok) =>
  }

  lemma RestCounted(cfg: Config, s: Proxy, a: Action)
    requires Counted(s) && Possible(cfg, s, a) && !IsPumpAction(a)
    ensures Counted(Step(cfg, s, a))
  {
    match a
    case SweepMap(now) => QuietCounted(s, OnSweep(s, now));
    case ExpireNext => QuietCounted(s, OnExpireNext(s));
    case ReplyArrives(x, payload) => QuietCounted(s, OnReply(s, x, payload));
    case SettleReply(x, ok) =>
    case TearDown(x) => QuietCounted(s, Step(cfg, s, a));
    case Close(x) => QuietCounted(s, Step(cfg, s, a));
  }

  /** In every reachable state the commands counted downlinked are those on the device bus,
      and the replies counted relayed those published at the site. */
  lemma {:induction false} CountersArePublications(cfg: Config, actions: seq<Action>)
    requires Run(cfg, actions).Some?
    ensures var s := Run(cfg, actions).value;
            s.counts.downlinked == |s.relayed| && s.counts.replyRelayed == |s.answers|
    decreases |actions|
  {
    if actions != [] {
      var front, a := actions[..|actions| - 1], actions[|actions| - 1];
      CountersArePublications(cfg, front);
      if IsPumpAction(a) {
        PumpCounted(cfg, Run(cfg, front).value, a);
      } else {
        RestCounted(cfg, Run(cfg, front).value, a);
      }
    }
  }

  // ---- what is owed is published ----

  lemma RunExtends(cfg: Config, actions: seq<Action>, a: Action)
    requires Run(cfg, actions).Some? && Possible(cfg, Run(cfg, actions).value, a)
    ensures Run(cfg, actions + [a]) == Some(Step(cfg, Run(cfg, actions).value, a))
  {
    assert (actions + [a])[..|actions|] == actions;
  }

  /** A reply in hand that can cross. */
  ghost predicate CanCross(cfg: Config, payload: Bytes) {
    && cfg.codec.decode(payload).Some?
    && var r := cfg.codec.decode(payload).value;
    && JString(cfg.engine.hopId) !in Hops(r) && |Hops(r)| < cfg.engine.maxHops
    && cfg.codec.encode(WithHops(r, Hops(r) + [JString(cfg.engine.hopId)]).(replyTo := None)).Some?
  }

  /** A taken reply is published exactly if it can cross and the site accepts it: then once,
      to the site topic recorded for its request, and nothing else is. */
  lemma TakenIsAnswered(cfg: Config, actions: seq<Action>, bridge: string, ok: bool)
    requires WellBehaved(cfg.codec) && Run(cfg, actions).Some?
    requires Possible(cfg, Run(cfg, actions).value, SettleReply(bridge, ok))
    ensures Run(cfg, actions + [SettleReply(bridge, ok)]).Some?
    ensures var s, t := Run(cfg, actions).value, Run(cfg, actions + [SettleReply(bridge, ok)]).value;
            var reply := s.repliers[bridge].reply;
            && bridge in s.recorded
            && (!(ok && CanCross(cfg, reply)) ==> t.answers == s.answers)
            && (ok && CanCross(cfg, reply) ==>
                  && |t.answers| == |s.answers| + 1 && s.answers <= t.answers
                  && t.answers[|s.answers|].bridge == bridge
                  && t.answers[|s.answers|].site == s.recorded[bridge].site
                  && Relayed(t.answers[|s.answers|].payload) == PrepareReply(cfg.engine, cfg.codec, reply)
                  && forall j :: 0 <= j < |s.answers| ==> s.answers[j].bridge != bridge)
            && t.repliers == s.repliers[bridge := Settled] && t.subs == s.subs
  {
    var s := Run(cfg, actions).value;
    ReplyCrosses(cfg.engine, cfg.codec, s.repliers[bridge].reply);
    RunExtends(cfg, actions, SettleReply(bridge, ok));
    ProxyInvariant(cfg, actions);
    AtMostOneAnswer(cfg, actions + [SettleReply(bridge, ok)]);
  }

  /** A command ready for the device bus is published there exactly if the bus accepts it, as it
      stands, and counted either way. */
  lemma ReadyIsRelayed(cfg: Config, actions: seq<Action>, i: nat, ok: bool)
    requires Run(cfg, actions).Some? && Possible(cfg, Run(cfg, actions).value, RelayDown(i, ok))
    ensures Run(cfg, actions + [RelayDown(i, ok)]).Some?
    ensures var s, t := Run(cfg, actions).value, Run(cfg, actions + [RelayDown(i, ok)]).value;
            && |t.relayed| == |s.relayed| + (if ok then 1 else 0) && s.relayed <= t.relayed
            && (ok ==> t.relayed[|s.relayed|].topic == s.pumps[i].topic
                       && t.relayed[|s.relayed|].payload == s.pumps[i].payload)
            && t.counts.publishFailed == s.counts.publishFailed + (if ok then 0 else 1)
            && t.pumps == s.pumps[i := Idle]
  {
    RunExtends(cfg, actions, RelayDown(i, ok));
  }

  /** A command that asks for no reply goes on to the device bus as it is, past the map; one
      that asks for one goes by way of a subscription; only one that cannot be rewritten is
      dropped. */
  lemma RewriteLeadsOn(cfg: Config, s: Proxy, i: nat, minted: string, now: int)
    requires Possible(cfg, s, RewriteCmd(i, minted, now)) && cfg.codec.decode(s.pumps[i].payload).Some?
    ensures var t, p, m := OnRewrite(cfg, s, i, minted, now), s.pumps[i], cfg.codec.decode(s.pumps[i].payload).value;
            && (m.replyTo == None ==>
                  && t.pumps == s.pumps[i := Relaying(p.topic, p.payload, p.from)]
                  && t.corr == s.corr && t.counts == s.counts)
            && (t.pumps[i].Idle? <==>
                  m.replyTo.Some? && cfg.codec.encode(m.(replyTo := Some(minted))).None?)
            && (t.pumps[i].Evicting? || t.pumps[i].Subscribing? <==>
                  m.replyTo.Some? && cfg.codec.encode(m.(replyTo := Some(minted))).Some?)
            && (t.pumps[i].Evicting? ==> |s.corr.pending| >= s.corr.maxPending)
  {
    RewriteExactly(s.corr, cfg.codec, s.pumps[i].payload, minted, now);
  }

  /** Once recorded, a command goes by way of its victim, if it has one, and its subscribe. Only a
      failed subscribe keeps it from the device bus: whatever has become of its entry meanwhile,
      a subscribed one is relayed, after giving the subscription back if the entry is gone. */
  lemma RecordedLeadsOn(cfg: Config, s: Proxy, a: Action)
    requires ProxyInv(cfg, s) && Possible(cfg, s, a)
    requires a.Evict? || a.Subscribe? || a.GiveUp? || a.Recheck? || a.Undangle?
    ensures var t, cmd := Step(cfg, s, a), s.pumps[a.i].cmd;
            && a.i < |t.pumps| && t.pumps == s.pumps[a.i := t.pumps[a.i]] && t.relayed == s.relayed
            && (a.Evict? ==> t.pumps[a.i] == Subscribing(cmd))
            && (a.Subscribe? ==> t.pumps[a.i] == if a.ok then Rechecking(cmd) else Abandoning(cmd))
            && (a.GiveUp? ==> t.pumps[a.i] == Idle)
            && (a.Recheck? ==>
                  t.pumps[a.i] == if s.recorded[cmd.bridge].fate != Live then Dangling(cmd)
                                  else Relaying(cmd.topic, cmd.bytes, cmd.from))
            && (a.Undangle? ==> t.pumps[a.i] == Relaying(cmd.topic, cmd.bytes, cmd.from))
            && t.counts == s.counts.(expired := s.counts.expired + (if a.Evict? then 1 else 0),
                                     subscribeFailed := s.counts.subscribeFailed + (if a.GiveUp? then 1 else 0))
  {
    if a.Recheck? { ContainsIsLive(s, s.pumps[a.i].cmd.bridge); }
  }

  /** A command received is decided on, and held or counted dropped accordingly. */
  lemma ReceiveLeadsOn(cfg: Config, s: Proxy, i: nat, topic: string, payload: Bytes)
    requires Possible(cfg, s, Receive(i, topic, payload))
    ensures var t, d := OnReceive(cfg, s, i, topic, payload), Decide(cfg.engine, cfg.codec, Downlink, topic, payload);
            && t.pumps == s.pumps[i := if d.Forward? then Decided(topic, d.bytes, |s.inbox|) else Idle]
            && t.counts == s.counts.(received := s.counts.received + 1,
                                     dropped := s.counts.dropped + (if d.Forward? then 0 else 1))
            && t.corr == s.corr && t.subs == s.subs && t.relayed == s.relayed
  {
    assert s.pumps[i := Idle] == s.pumps;
  }

  /** A reply resolves its request exactly if the map still has it; then the entry is gone and
      the reply in hand. Otherwise it is a stray, counted and dropped. */
  lemma ReplyResolvesExactly(cfg: Config, s: Proxy, bridge: string, payload: Bytes)
    requires ProxyInv(cfg, s) && Possible(cfg, s, ReplyArrives(bridge, payload))
    ensures var t, open := OnReply(s, bridge, payload), bridge in s.recorded && s.recorded[bridge].fate == Live;
            && (open ==> t.repliers == s.repliers[bridge := Resolved(s.recorded[bridge].site, payload)]
                         && !Contains(t.corr, bridge) && t.counts == s.counts)
            && (!open ==> t.repliers == s.repliers[bridge := Done] && t.corr == s.corr
                          && t.counts == s.counts.(stray := s.counts.stray + 1))
  {
    ContainsIsLive(s, bridge);
    RemovedAgrees(s, bridge, Taken);
    RemovedMembers(s.corr, s.clock, bridge);
    Found(Abandon(s.corr, bridge).pending, bridge);
  }

  // ---- progress ----

  /** No task is ever stuck: every pump has a step (given a new topic to mint), so has every
      reply pump that has something to do, and the sweep. */
  lemma NobodyIsStuck(cfg: Config, s: Proxy, i: nat, bridge: string, topic: string, payload: Bytes, minted: string,
                      now: int, ok: bool)
    requires s.clock <= now && minted !in s.seen
    ensures i < |s.pumps| && (s.pumps[i].Decided? ==> Fresh(cfg, s, i, minted)) ==>
              || Possible(cfg, s, Receive(i, topic, payload)) || Possible(cfg, s, RewriteCmd(i, minted, now))
              || Possible(cfg, s, Evict(i)) || Possible(cfg, s, Subscribe(i, ok)) || Possible(cfg, s, GiveUp(i))
              || Possible(cfg, s, Recheck(i)) || Possible(cfg, s, Undangle(i)) || Possible(cfg, s, RelayDown(i, ok))
    ensures bridge in s.repliers && !s.repliers[bridge].Done? ==>
              || Possible(cfg, s, ReplyArrives(bridge, payload)) || Possible(cfg, s, SettleReply(bridge, ok))
              || Possible(cfg, s, TearDown(bridge))
    ensures bridge in s.repliers && s.repliers[bridge].Waiting? && bridge !in s.subs ==> Possible(cfg, s, Close(bridge))
    ensures Possible(cfg, s, ExpireNext) || Possible(cfg, s, SweepMap(now))
  {
  }
}

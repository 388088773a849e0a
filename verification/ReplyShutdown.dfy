/** What shutting down leaves subscribed: exactly what an aborted task still owed. */
module ReplyShutdown {
  import opened Wrappers
  import opened Messages
  import opened Relay
  import opened Reply
  import opened ReplyProxy
  import opened ReplyInvariants

  /** Shutdown from any reachable state leaves live exactly the subscriptions whose entry
      had already left the map, each owed by a task it aborted. */
  lemma LeavesOnlyOwed(cfg: Config, actions: seq<Action>, t: string)
    requires Run(cfg, actions).Some?
    ensures var s := Run(cfg, actions).value;
            t in Shutdown(s).subs <==> t in s.subs && t in s.recorded && Obliged(s, t) && t !in Keys(s.corr)
  {
    ProxyInvariant(cfg, actions);
    assert SubscribedFor(Run(cfg, actions).value, t);
  }

  /** A reply pump that has resolved its request has yet to unsubscribe. */
  ghost predicate TakenSubscribed(s: Proxy) {
    forall t :: t in s.repliers && (s.repliers[t].Resolved? || s.repliers[t].Settled?) ==> t in s.subs
  }

  lemma RemovalSubscribed(s: Proxy, t: Proxy, x: string)
    requires Repliers(s) && TakenSubscribed(s) && t.repliers == s.repliers && t.subs == s.subs - {x}
    requires x in s.recorded && s.recorded[x].fate != Taken
    ensures TakenSubscribed(t)
  {
  }

  lemma ReplySubscribed(cfg: Config, s: Proxy, x: string, payload: Bytes)
    requires ProxyInv(cfg, s) && TakenSubscribed(s) && Possible(cfg, s, ReplyArrives(x, payload))
    ensures TakenSubscribed(OnReply(s, x, payload))
  {
    RemovedAgrees(s, x, Taken);
    ContainsIsLive(s, x);
    assert SubscribedFor(s, x);
  }

  lemma UndangleSubscribed(cfg: Config, s: Proxy, i: nat)
    requires ProxyInv(cfg, s) && TakenSubscribed(s) && Possible(cfg, s, Undangle(i))
    ensures TakenSubscribed(OnUndangle(s, i))
  {
    assert s.pumps[i].cmd.bridge !in s.repliers;
  }

  /** The pump steps that unsubscribe nothing. */
  lemma OnwardSubscribed(cfg: Config, s: Proxy, a: Action)
    requires ProxyInv(cfg, s) && TakenSubscribed(s) && Possible(cfg, s, a)
    requires a.Receive? || a.RewriteCmd? || a.Subscribe? || a.GiveUp? || a.Recheck? || a.RelayDown?
    ensures TakenSubscribed(Step(cfg, s, a))
  {
    match a
    case RewriteCmd(i, minted, now) =>
    case Recheck(i) => assert s.pumps[i].cmd.bridge !in s.repliers;
    case _ =>
  }

  lemma TakenSubscribedStep(cfg: Config, s: Proxy, a: Action)
    requires ProxyInv(cfg, s) && TakenSubscribed(s) && Possible(cfg, s, a)
    ensures TakenSubscribed(Step(cfg, s, a))
  {
    match a
    case Evict(i) => RemovalSubscribed(s, OnEvict(s, i), s.pumps[i].victim);
    case ExpireNext =>
      assert s.sweeping[0] in s.recorded && s.recorded[s.sweeping[0]].fate == Expiring(BySweep);
      RemovalSubscribed(s, OnExpireNext(s), s.sweeping[0]);
    case Undangle(i) => UndangleSubscribed(cfg, s, i);
    case ReplyArrives(x, payload) => ReplySubscribed(cfg, s, x, payload);
    case SweepMap(now) =>
    case SettleReply(x, ok) =>
    case TearDown(x) =>
    case Close(x) =>
    case _ => OnwardSubscribed(cfg, s, a);
  }

  lemma {:induction false} TakenSubscribedInvariant(cfg: Config, actions: seq<Action>)
    requires Run(cfg, actions).Some?
    ensures TakenSubscribed(Run(cfg, actions).value)
    decreases |actions|
  {
    if actions != [] {
      var front := actions[..|actions| - 1];
      TakenSubscribedInvariant(cfg, front);
      ProxyInvariant(cfg, front);
      TakenSubscribedStep(cfg, Run(cfg, front).value, actions[|actions| - 1]);
    }
  }

  /** Where the tasks stand: no reply pump between resolving and unsubscribing; no victim and
      no swept topic still subscribed; no pump past its subscribe whose entry is gone. */
  ghost predicate NothingOwed(s: Proxy) {
    && (forall t :: t in s.repliers ==> s.repliers[t].Waiting? || s.repliers[t].Done?)
    && (forall i :: 0 <= i < |s.pumps| && s.pumps[i].Evicting? ==> s.pumps[i].victim !in s.subs)
    && (forall j :: 0 <= j < |s.sweeping| ==> s.sweeping[j] !in s.subs)
    && (forall i :: 0 <= i < |s.pumps| && (s.pumps[i].Rechecking? || s.pumps[i].Dangling?) ==>
          s.pumps[i].cmd.bridge in s.subs ==> s.pumps[i].cmd.bridge in Keys(s.corr))
  }

  /** A topic with a closed fate has no entry. */
  lemma ClosedHasNoEntry(s: Proxy, t: string)
    requires MapAgrees(s.corr, s.recorded) && t in s.recorded && s.recorded[t].fate != Live
    ensures t !in Keys(s.corr)
  {
  }

  lemma OwedIsLeft(cfg: Config, s: Proxy)
    requires ProxyInv(cfg, s) && TakenSubscribed(s) && s.subs <= Keys(s.corr)
    ensures NothingOwed(s)
  {
    forall t | t in s.repliers ensures s.repliers[t].Waiting? || s.repliers[t].Done? {
      if s.repliers[t].Resolved? || s.repliers[t].Settled? { ClosedHasNoEntry(s, t); }
    }
    forall i | 0 <= i < |s.pumps| && s.pumps[i].Evicting? ensures s.pumps[i].victim !in s.subs {
      ClosedHasNoEntry(s, s.pumps[i].victim);
    }
    forall j | 0 <= j < |s.sweeping| ensures s.sweeping[j] !in s.subs {
      ClosedHasNoEntry(s, s.sweeping[j]);
    }
  }

  /** Shutdown leaves nothing subscribed if and only if no task owed anything. */
  lemma CleanExactly(cfg: Config, actions: seq<Action>)
    requires Run(cfg, actions).Some?
    ensures Shutdown(Run(cfg, actions).value).subs == {} <==> NothingOwed(Run(cfg, actions).value)
  {
    ProxyInvariant(cfg, actions);
    TakenSubscribedInvariant(cfg, actions);
    var s := Run(cfg, actions).value;
    if Shutdown(s).subs == {} {
      assert forall t :: t in s.subs ==> t in Keys(s.corr) by {
        assert forall t :: t in s.subs && t !in Keys(s.corr) ==> t in Shutdown(s).subs;
      }
      OwedIsLeft(cfg, s);
    }
    if NothingOwed(s) {
      forall t | t in s.subs ensures t in Keys(s.corr) {
        assert SubscribedFor(s, t);
      }
    }
  }

  /** In particular at rest. */
  lemma CleanAtRest(cfg: Config, actions: seq<Action>)
    requires Run(cfg, actions).Some? && Quiescent(Run(cfg, actions).value)
    ensures Shutdown(Run(cfg, actions).value).subs == {}
  {
    SubscriptionsMatchMapAtRest(cfg, actions);
  }

  lemma RunExtends(cfg: Config, actions: seq<Action>, a: Action)
    requires Run(cfg, actions).Some? && Possible(cfg, Run(cfg, actions).value, a)
    ensures Run(cfg, actions + [a]) == Some(Step(cfg, Run(cfg, actions).value, a))
  {
    assert (actions + [a])[..|actions|] == actions;
  }

  /** A request recorded, subscribed and relayed on to its reply pump. */
  lemma Established(cfg: Config, topic: string, payload: Bytes, minted: string) returns (actions: seq<Action>)
    requires cfg.pumps > 0 && Decide(cfg.engine, cfg.codec, Downlink, topic, payload).Forward?
    requires var bytes := Decide(cfg.engine, cfg.codec, Downlink, topic, payload).bytes;
             && Rewrite(Empty(cfg.ttl, cfg.maxPending), cfg.codec, bytes, minted, 0).1.Rewritten?
             && cfg.codec.decode(bytes).value.replyTo != Some(minted)
    ensures Run(cfg, actions).Some?
    ensures var s := Run(cfg, actions).value;
            && s.subs == {minted} && s.repliers == map[minted := Waiting]
            && |s.corr.pending| == 1 && s.corr.pending[0].topic == minted
  {
    RunExtends(cfg, [], Receive(0, topic, payload));
    actions := [] + [Receive(0, topic, payload)];
    RunExtends(cfg, actions, RewriteCmd(0, minted, 0));
    actions := actions + [RewriteCmd(0, minted, 0)];
    RunExtends(cfg, actions, Subscribe(0, true));
    actions := actions + [Subscribe(0, true)];
    assert Contains(Run(cfg, actions).value.corr, minted);
    RunExtends(cfg, actions, Recheck(0));
    actions := actions + [Recheck(0)];
  }

  /** The leak is real: for any command whose reply topic is rewritten, some run shuts down
      while the reply pump holds the reply, and the bridge topic stays subscribed. */
  lemma CanLeaveOne(cfg: Config, topic: string, payload: Bytes, minted: string, reply: Bytes)
    returns (actions: seq<Action>)
    requires cfg.pumps > 0 && Decide(cfg.engine, cfg.codec, Downlink, topic, payload).Forward?
    requires var bytes := Decide(cfg.engine, cfg.codec, Downlink, topic, payload).bytes;
             && Rewrite(Empty(cfg.ttl, cfg.maxPending), cfg.codec, bytes, minted, 0).1.Rewritten?
             && cfg.codec.decode(bytes).value.replyTo != Some(minted)
    ensures Run(cfg, actions).Some?
    ensures Shutdown(Run(cfg, actions).value).subs == {minted}
  {
    actions := Established(cfg, topic, payload, minted);
    RunExtends(cfg, actions, ReplyArrives(minted, reply));
    actions := actions + [ReplyArrives(minted, reply)];
  }
}
